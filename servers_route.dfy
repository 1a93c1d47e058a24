/**
 * `/api/mcp`: the server catalogue. `GET` lists public servers and the
 * caller's own with `limit`/`offset` paging and an `orderBy` field; `POST`,
 * `PATCH` and `DELETE` create, update and remove the caller's servers, which
 * are unique by `(name, ownerId)`. The database is an in-memory table of
 * servers and of server-category links; the signed-in user is a parameter.
 */
module ServersRoute {
  import opened Wrappers
  import opened Strings
  import opened Pagination
  import opened GenerateId

  // ---------------------------------------------------------------------------
  // orderBy
  // ---------------------------------------------------------------------------

  datatype SortField = Name | CreatedAt | UpdatedAt
  datatype OrderSpec = OrderSpec(field: SortField, descending: bool)

  const DefaultOrderBy := "-createdAt"
  const InvalidOrderByMessage := "Invalid orderBy field"

  /** The own members of `validFields`: the accepted spellings and the column each stands for. */
  function OwnField(name: string): (f: Option<SortField>)
    ensures f.Some? <==> name in {"name", "created_at", "createdAt", "updated_at", "updatedAt"}
  {
    match name
    case "name" => Some(Name)
    case "created_at" => Some(CreatedAt)
    case "createdAt" => Some(CreatedAt)
    case "updated_at" => Some(UpdatedAt)
    case "updatedAt" => Some(UpdatedAt)
    case _ => None
  }

  /** The field part of `orderBy || "-createdAt"`, and whether it asked for descending order. */
  function SplitOrderBy(raw: Option<string>): (parts: (string, bool))
    ensures var s := if TruthyOpt(raw) then raw.value else DefaultOrderBy;
            parts.1 <==> HasPrefix(s, "-")
    ensures var s := if TruthyOpt(raw) then raw.value else DefaultOrderBy;
            (if parts.1 then "-" else "") + parts.0 == s
  {
    var s := if TruthyOpt(raw) then raw.value else DefaultOrderBy;
    var descending := |s| > 0 && s[0] == '-';
    assert descending ==> "-" + s[1..] == s;
    (if descending then s[1..] else s, descending)
  }

  /** `orderBy` as accepted: the sort it asks for, or the 400 message. */
  function ParseOrderBy(raw: Option<string>): (r: Result<OrderSpec, string>)
    ensures r.Ok? <==> OwnField(SplitOrderBy(raw).0).Some?
    ensures r.Ok? ==> r.value == OrderSpec(OwnField(SplitOrderBy(raw).0).value, SplitOrderBy(raw).1)
    ensures r.Err? ==> r.error == InvalidOrderByMessage
  {
    var (field, descending) := SplitOrderBy(raw);
    match OwnField(field)
    case Some(f) => Ok(OrderSpec(f, descending))
    case None => Err(InvalidOrderByMessage)
  }

  /** The canonical spelling of a sort, as a client would send it. */
  function RenderOrderBy(o: OrderSpec): string {
    (if o.descending then "-" else "")
    + match o.field
      case Name => "name"
      case CreatedAt => "createdAt"
      case UpdatedAt => "updatedAt"
  }

  /** Every sort survives being written out and parsed again. */
  lemma {:induction false} ParseRenderOrderBy(o: OrderSpec)
    ensures ParseOrderBy(Some(RenderOrderBy(o))) == Ok(o)
  {
    var s := RenderOrderBy(o);
    var field := match o.field case Name => "name" case CreatedAt => "createdAt" case UpdatedAt => "updatedAt";
    if o.descending {
      assert s == "-" + field && s[1..] == field;
    } else {
      assert s == field && s[0] != '-';
    }
  }

  /** No `orderBy`, or an empty one, means newest first. */
  lemma DefaultOrderIsNewestFirst()
    ensures ParseOrderBy(None) == Ok(OrderSpec(CreatedAt, true))
    ensures ParseOrderBy(Some("")) == Ok(OrderSpec(CreatedAt, true))
  {
    assert DefaultOrderBy[1..] == "createdAt";
  }

  /** The members every plain object inherits from `Object.prototype`. */
  const ObjectPrototypeMembers: set<string> := {
    "constructor", "hasOwnProperty", "isPrototypeOf", "propertyIsEnumerable", "toLocaleString",
    "toString", "valueOf", "__proto__", "__defineGetter__", "__defineSetter__",
    "__lookupGetter__", "__lookupSetter__"}

  /** `validFields[field]` as written: an own member, an inherited member (a truthy function or object), or `undefined`. */
  datatype FieldLookup = Own(field: SortField) | Inherited | Missing

  function LookupAsWritten(field: string): FieldLookup {
    if OwnField(field).Some? then Own(OwnField(field).value)
    else if field in ObjectPrototypeMembers then Inherited
    else Missing
  }

  /** The guard `if (!prismaField)` as written: it passes every truthy lookup. */
  predicate OrderByGuardPassesAsWritten(raw: Option<string>) {
    !LookupAsWritten(SplitOrderBy(raw).0).Missing?
  }

  /**
   * `orderBy=toString` (or `-constructor`, `__proto__`, ...) gets past the
   * guard as written, so the 400 "Invalid orderBy field" is not returned and
   * the database receives a sort on a key that is no column; `ParseOrderBy`
   * rejects it.
   */
  lemma {:induction false} InheritedNamePassesGuard()
    ensures OrderByGuardPassesAsWritten(Some("toString"))
    ensures ParseOrderBy(Some("toString")) == Err(InvalidOrderByMessage)
  {
    assert "toString"[0] != '-';
    assert SplitOrderBy(Some("toString")).0 == "toString";
  }

  /** Apart from the inherited names, the guard as written and `ParseOrderBy` accept the same values. */
  lemma GuardAgreesOffPrototype(raw: Option<string>)
    requires SplitOrderBy(raw).0 !in ObjectPrototypeMembers
    ensures OrderByGuardPassesAsWritten(raw) <==> ParseOrderBy(raw).Ok?
  {
  }

  // ---------------------------------------------------------------------------
  // Rows and the list query
  // ---------------------------------------------------------------------------

  datatype ServerRow = ServerRow(
    id: string,
    name: string,
    transport: Option<string>,
    url: Option<string>,
    requiresOauth2: bool,
    isPublic: bool,
    isFeatured: bool,
    description: Option<string>,
    ownerId: string)

  datatype Category = Category(id: string, name: string, description: Option<string>)

  datatype Owner = Owner(id: string, username: Option<string>, email: Option<string>,
                         firstName: Option<string>, lastName: Option<string>)

  /** `transformServerData`: the row with its categories and its owner (or null) expanded. */
  datatype ServerView = ServerView(server: ServerRow, categories: set<Category>, owner: Option<Owner>)

  /** The `name: { contains, mode: 'insensitive' }` part of the list query, present only for a non-empty search. */
  predicate SearchMatches(row: ServerRow, search: Option<string>) {
    TruthyOpt(search) ==> Includes(Lower(row.name), Lower(search.value))
  }

  /**
   * The list query's `where` as written: `OR: [{ isPublic: true }, { ownerId: userId || undefined }]`.
   * Without a user the second branch is `{ ownerId: undefined }`, which Prisma reads as the empty
   * filter, so it matches every row.
   */
  predicate ListedAsWritten(row: ServerRow, userId: Option<string>, search: Option<string>) {
    (row.isPublic || !TruthyOpt(userId) || row.ownerId == userId.value) && SearchMatches(row, search)
  }

  /** The list query's intended `where`: public or owned by the caller, and matching the search. */
  predicate Listed(row: ServerRow, userId: Option<string>, search: Option<string>) {
    (row.isPublic || (TruthyOpt(userId) && row.ownerId == userId.value)) && SearchMatches(row, search)
  }

  /** As written, a signed-out caller is shown a private server that is not theirs; the intended filter hides it. */
  lemma SignedOutSeesPrivateRows(row: ServerRow, userId: Option<string>)
    requires !TruthyOpt(userId) && !row.isPublic
    ensures ListedAsWritten(row, userId, None)
    ensures !Listed(row, userId, None)
  {
  }

  /** For a signed-in caller the written and the intended `where` keep the same rows. */
  lemma WhereAgreesSignedIn(row: ServerRow, userId: Option<string>, search: Option<string>)
    requires TruthyOpt(userId)
    ensures ListedAsWritten(row, userId, search) <==> Listed(row, userId, search)
  {
  }

  /** The rows the `where` clause keeps, in table order. */
  function Matching(rows: seq<ServerRow>, userId: Option<string>, search: Option<string>): (m: seq<ServerRow>)
    ensures |m| <= |rows|
    ensures forall r :: r in m ==> r in rows && Listed(r, userId, search)
    ensures forall r :: r in rows && Listed(r, userId, search) ==> r in m
  {
    if rows == [] then []
    else
      var rest := Matching(rows[1..], userId, search);
      assert forall r :: r in rows ==> r == rows[0] || r in rows[1..];
      if Listed(rows[0], userId, search) then [rows[0]] + rest else rest
  }

  datatype ListQuery = ListQuery(limit: Option<string>, offset: Option<string>, orderBy: Option<string>, search: Option<string>)

  datatype ListResponse =
    | Page(order: OrderSpec, edges: seq<ServerRow>, pageInfo: PageInfo)
    | ListFailed(status: int, error: string)

  const QueryRejectedMessage := "query rejected: skip must be a non-negative integer and take an integer"

  /**
   * `GET`: `limit` defaults to 10 and `offset` to 0; an unknown `orderBy` is a
   * 400; a NaN `limit` or `offset`, or a negative `offset`, is refused by the
   * database (500); otherwise the matching rows taken with `skip: offset,
   * take: limit` (a negative limit counts from the end) and the `pageInfo`.
   */
  function HandleGet(q: ListQuery, userId: Option<string>, rows: seq<ServerRow>): (r: ListResponse)
    ensures ParseOrderBy(q.orderBy).Err? ==> r == ListFailed(400, InvalidOrderByMessage)
    ensures r.Page? ==> r.order == ParseOrderBy(q.orderBy).value
    ensures ParseOrderBy(q.orderBy).Ok? ==>
              (r.ListFailed? <==> !(IntParam(q.limit, 10).Int? && IntParam(q.offset, 0).Int? && 0 <= IntParam(q.offset, 0).i))
    ensures r.Page? ==> var limit, offset := IntParam(q.limit, 10), IntParam(q.offset, 0);
              limit.Int? && offset.Int? && 0 <= offset.i &&
              r.edges == Take(Matching(rows, userId, q.search), offset.i, limit.i) &&
              r.pageInfo == MakePageInfo(offset, limit, |Matching(rows, userId, q.search)|)
  {
    var limit := IntParam(q.limit, 10);
    var offset := IntParam(q.offset, 0);
    match ParseOrderBy(q.orderBy)
    case Err(e) => ListFailed(400, e)
    case Ok(order) =>
      if !(limit.Int? && offset.Int? && 0 <= offset.i) then ListFailed(500, QueryRejectedMessage)
      else
        var matching := Matching(rows, userId, q.search);
        Page(order, Take(matching, offset.i, limit.i), MakePageInfo(offset, limit, |matching|))
  }

  /** Every listed server is public or belongs to the caller, and matches the search. */
  lemma ListedServersVisible(q: ListQuery, userId: Option<string>, rows: seq<ServerRow>)
    ensures var r := HandleGet(q, userId, rows);
            r.Page? ==> forall s :: s in r.edges ==>
              s in rows && (s.isPublic || (TruthyOpt(userId) && s.ownerId == userId.value))
  {
    var r := HandleGet(q, userId, rows);
    if r.Page? {
      TakeWithin(Matching(rows, userId, q.search), IntParam(q.offset, 0).i, IntParam(q.limit, 10).i);
    }
  }

  /** Without `limit` and `offset` the first ten matching rows come back, with no previous page. */
  lemma {:induction false} DefaultPage(orderBy: Option<string>, search: Option<string>, userId: Option<string>, rows: seq<ServerRow>)
    requires ParseOrderBy(orderBy).Ok?
    ensures var r := HandleGet(ListQuery(None, None, orderBy, search), userId, rows);
            var m := Matching(rows, userId, search);
            r.Page? && r.edges == m[..if |m| < 10 then |m| else 10] && !r.pageInfo.hasPreviousPage &&
            (r.pageInfo.hasNextPage <==> |m| > 10)
  {
  }

  /**
   * For a non-negative `limit`, a page reports a next page exactly when
   * matching rows remain after it.
   */
  lemma PageHasNextIffMore(q: ListQuery, userId: Option<string>, rows: seq<ServerRow>)
    ensures var r := HandleGet(q, userId, rows);
            r.Page? && IntParam(q.limit, 10).i >= 0 ==>
              (r.pageInfo.hasNextPage <==> IntParam(q.offset, 0).i + |r.edges| < |Matching(rows, userId, q.search)|)
  {
    var r := HandleGet(q, userId, rows);
    if r.Page? && IntParam(q.limit, 10).i >= 0 {
      NextPageIffRowsRemain(Matching(rows, userId, q.search), IntParam(q.offset, 0).i, IntParam(q.limit, 10).i);
    }
  }

  /**
   * `limit=-n` without an offset gives the last n matching rows, and the page
   * always claims a next page, since `0 + -n < totalCount`.
   */
  lemma NegativeLimitFromEnd(n: nat, orderBy: Option<string>, search: Option<string>, userId: Option<string>,
                             rows: seq<ServerRow>)
    requires n > 0 && ParseOrderBy(orderBy).Ok?
    ensures var r := HandleGet(ListQuery(Some("-" + Decimal(n)), None, orderBy, search), userId, rows);
            var m := Matching(rows, userId, search);
            r.Page? && r.edges == m[if |m| >= n then |m| - n else 0..] && r.pageInfo.hasNextPage
  {
    var q := ListQuery(Some("-" + Decimal(n)), None, orderBy, search);
    NegativeLimitParam(n);
    var m := Matching(rows, userId, search);
    var r := HandleGet(q, userId, rows);
    assert r.Page?;
    assert r.edges == FromEnd(m, 0, n);
  }

  /** The text `-n` in the `limit` parameter reads as -n. */
  lemma NegativeLimitParam(n: nat)
    requires n > 0
    ensures IntParam(Some("-" + Decimal(n)), 10) == Int(-(n as int))
  {
    ParseIntNegativeDecimal(n);
  }

  // ---------------------------------------------------------------------------
  // The table and the writes
  // ---------------------------------------------------------------------------

  /** `categoryIds` in a request body. */
  datatype CategoryIds = Undefined | Null | Ids(ids: seq<string>)

  /** The fields a `POST` or `PATCH` body may carry. */
  datatype ServerBody = ServerBody(
    name: Option<string>,
    transport: Option<string>,
    url: Option<string>,
    requiresOauth: Option<bool>,
    isPublic: Option<bool>,
    isFeatured: Option<bool>,
    description: Option<string>,
    categoryIds: CategoryIds)

  /** Why a request failed: a message the route wrote, or one from the database or the runtime. */
  datatype ErrorText = Message(text: string) | DatabaseError

  datatype ApiResponse =
    | Created(view: ServerView)     // 201
    | Updated(view: ServerView)     // 200
    | Deleted                       // 200
    | Failed(status: int, error: ErrorText)

  const UnauthorizedMessage := "Unauthorized"
  const NameRequiredMessage := "Server name is required"
  const PatchNotFoundMessage := "Server not found or you don't have permission to update it"
  const DeleteNotFoundMessage := "Server not found or unauthorized"
  /** The TypeError `null.length` raises inside `updateServerCategories`. */
  const NullLengthMessage := "Cannot read properties of null (reading 'length')"

  function ConflictMessage(name: string): string {
    "Server with name \"" + name + "\" already exists. Use PATCH to update it."
  }

  /** `x || false` on an optional boolean. */
  function Flag(b: Option<bool>): bool {
    b == Some(true)
  }

  /** `x || null` on an optional string. */
  function NullIfFalsy(s: Option<string>): (r: Option<string>)
    ensures r.Some? <==> TruthyOpt(s)
    ensures r.Some? ==> r == s
  {
    if TruthyOpt(s) then s else None
  }

  /** The row `POST` creates from a body whose name is given. */
  function NewRow(id: string, b: ServerBody, ownerId: string): ServerRow
    requires b.name.Some?
  {
    ServerRow(id, b.name.value, b.transport, NullIfFalsy(b.url), Flag(b.requiresOauth),
              Flag(b.isPublic), Flag(b.isFeatured), NullIfFalsy(b.description), ownerId)
  }

  /** The row `PATCH` writes: the body's fields, keeping the stored `transport` when the body has none. */
  function Patched(row: ServerRow, b: ServerBody): ServerRow {
    row.(transport := if b.transport.Some? then b.transport else row.transport,
         url := NullIfFalsy(b.url), requiresOauth2 := Flag(b.requiresOauth),
         isPublic := Flag(b.isPublic), isFeatured := Flag(b.isFeatured),
         description := NullIfFalsy(b.description))
  }

  /** The category ids `ids` links to one server. */
  function LinksFor(serverId: string, ids: seq<string>): set<(string, string)> {
    set c | c in ids :: (serverId, c)
  }

  class ServerTable {
    var servers: map<string, ServerRow>
    /** The `mcpServerCategory` table as (serverId, categoryId) pairs, unique per pair. */
    var links: set<(string, string)>
    const categories: map<string, Category>
    const owners: map<string, Owner>

    /**
     * Rows are stored under their id, `(name, ownerId)` is unique, and every
     * link names an existing server and an existing category (its two foreign keys).
     */
    predicate Valid()
      reads this
    {
      (forall id :: id in servers ==> servers[id].id == id)
      && (forall a, b ::
            a in servers && b in servers && servers[a].name == servers[b].name && servers[a].ownerId == servers[b].ownerId
            ==> a == b)
      && (forall l :: l in links ==> l.0 in servers && l.1 in categories)
    }

    /** Every listed category id names a stored category, so `createMany` meets its foreign key. */
    predicate KnownCategories(ids: seq<string>) {
      forall c :: c in ids ==> c in categories
    }

    constructor (categories: map<string, Category>, owners: map<string, Owner>)
      ensures Valid()
      ensures servers == map[] && links == {} && this.categories == categories && this.owners == owners
    {
      servers := map[];
      links := {};
      this.categories := categories;
      this.owners := owners;
    }

    /** The category ids linked to a server. */
    function CategoryIdsOf(serverId: string): set<string>
      reads this
    {
      set l | l in links && l.0 == serverId :: l.1
    }

    /** `transformServerData` of a stored row. */
    function View(id: string): (v: ServerView)
      reads this
      requires id in servers
      ensures v.server == servers[id]
      ensures forall c :: c in v.categories <==> exists k :: k in CategoryIdsOf(id) && k in categories && categories[k] == c
    {
      var cats := set k | k in CategoryIdsOf(id) && k in categories :: categories[k];
      ServerView(servers[id], cats,
                 if servers[id].ownerId in owners then Some(owners[servers[id].ownerId]) else None)
    }

    /** `findUnique({ name_ownerId })`. */
    method FindUnique(name: string, ownerId: string) returns (found: Option<string>)
      ensures found.Some? ==> found.value in servers && servers[found.value].name == name && servers[found.value].ownerId == ownerId
      ensures found.None? ==> forall id :: id in servers ==> !(servers[id].name == name && servers[id].ownerId == ownerId)
    {
      var rest := servers.Keys;
      while rest != {}
        invariant rest <= servers.Keys
        invariant forall id :: id in servers && id !in rest ==> !(servers[id].name == name && servers[id].ownerId == ownerId)
        decreases rest
      {
        var id :| id in rest;
        if servers[id].name == name && servers[id].ownerId == ownerId {
          return Some(id);
        }
        rest := rest - {id};
      }
      found := None;
    }

    /** `create`: a fresh id whose `(name, ownerId)` is not taken yet. */
    method InsertRow(row: ServerRow)
      requires Valid() && row.id !in servers
      requires forall id :: id in servers ==> !(servers[id].name == row.name && servers[id].ownerId == row.ownerId)
      modifies this`servers
      ensures Valid()
      ensures servers == old(servers)[row.id := row]
    {
      servers := servers[row.id := row];
    }

    /** `update` of a stored row that keeps its id, name and owner. */
    method ReplaceRow(row: ServerRow)
      requires Valid() && row.id in servers
      requires servers[row.id].name == row.name && servers[row.id].ownerId == row.ownerId
      modifies this`servers
      ensures Valid()
      ensures servers == old(servers)[row.id := row]
    {
      servers := servers[row.id := row];
    }

    /**
     * `updateServerCategories(serverId, ids)`: drops the server's links, then
     * links each listed category once. `null` throws after the links are gone,
     * and so does an unknown category id, whose foreign key fails the whole
     * `createMany`.
     */
    method UpdateServerCategories(serverId: string, ids: Option<seq<string>>) returns (ok: bool)
      requires Valid() && serverId in servers
      modifies this`links
      ensures Valid()
      ensures ok <==> ids.Some? && KnownCategories(ids.value)
      ensures links == (set l | l in old(links) && l.0 != serverId) + (if ok then LinksFor(serverId, ids.value) else {})
    {
      links := set l | l in links && l.0 != serverId;
      if ids.None? || !KnownCategories(ids.value) {
        return false;
      }
      if |ids.value| > 0 {
        links := links + LinksFor(serverId, ids.value);
      }
      ok := true;
    }

    /**
     * `POST`: 401 without a user, 409 and no write when `(name, user)` exists,
     * else the new row (201). An unknown category id answers 500 after the row
     * is written, with no link.
     */
    method Post(userId: Option<string>, body: Result<ServerBody, string>, suffix: NanoId) returns (r: ApiResponse)
      requires Valid()
      modifies this
      ensures Valid()
      ensures !TruthyOpt(userId) ==> r == Failed(401, Message(UnauthorizedMessage))
      ensures !r.Created? && r != Failed(500, DatabaseError) ==> servers == old(servers) && links == old(links)
      ensures !(TruthyOpt(userId) && body.Ok? && body.value.name.Some? && MakeId(PrefixText(McpServer), suffix) !in old(servers)) ==>
                servers == old(servers) && links == old(links)
      ensures TruthyOpt(userId) && body.Ok? && body.value.name.Some? &&
              (exists id :: id in old(servers) && old(servers)[id].name == body.value.name.value && old(servers)[id].ownerId == userId.value)
              ==> r == Failed(409, Message(ConflictMessage(body.value.name.value)))
      ensures r.Created? ==>
                TruthyOpt(userId) && body.Ok? && body.value.name.Some? &&
                var b, id := body.value, MakeId(PrefixText(McpServer), suffix);
                id !in old(servers) &&
                servers == old(servers)[id := NewRow(id, b, userId.value)] &&
                links == old(links) + (if b.categoryIds.Ids? then LinksFor(id, b.categoryIds.ids) else {}) &&
                r.view == View(id)
      ensures TruthyOpt(userId) && body.Ok? && body.value.name.Some? &&
              (forall id :: id in old(servers) ==> !(old(servers)[id].name == body.value.name.value && old(servers)[id].ownerId == userId.value)) &&
              MakeId(PrefixText(McpServer), suffix) !in old(servers)
              ==> var b, id := body.value, MakeId(PrefixText(McpServer), suffix);
                  servers == old(servers)[id := NewRow(id, b, userId.value)] &&
                  if b.categoryIds.Ids? && !KnownCategories(b.categoryIds.ids) then
                    r == Failed(500, DatabaseError) && links == old(links)
                  else
                    r.Created?
    {
      if !TruthyOpt(userId) {
        return Failed(401, Message(UnauthorizedMessage));
      }
      if body.Err? {
        return Failed(500, Message(body.error));
      }
      var b := body.value;
      if b.name.None? {
        return Failed(500, DatabaseError);
      }
      var existing := FindUnique(b.name.value, userId.value);
      if existing.Some? {
        return Failed(409, Message(ConflictMessage(b.name.value)));
      }
      var id := MakeId(PrefixText(McpServer), suffix);
      if id in servers {
        return Failed(500, DatabaseError);
      }
      r := CreateRow(id, b, userId.value);
    }

    /** The writes of `POST` once (name, owner) is free: the row, then its links, which an unknown category id fails. */
    method CreateRow(id: string, b: ServerBody, ownerId: string) returns (r: ApiResponse)
      requires Valid() && id !in servers && b.name.Some?
      requires forall k :: k in servers ==> !(servers[k].name == b.name.value && servers[k].ownerId == ownerId)
      modifies this`servers, this`links
      ensures Valid()
      ensures servers == old(servers)[id := NewRow(id, b, ownerId)]
      ensures var linked := b.categoryIds.Ids? && KnownCategories(b.categoryIds.ids);
              links == old(links) + (if linked then LinksFor(id, b.categoryIds.ids) else {}) &&
              r == if b.categoryIds.Ids? && !linked then Failed(500, DatabaseError) else Created(View(id))
    {
      InsertRow(NewRow(id, b, ownerId));
      assert forall l :: l in links ==> l.0 != id;
      if b.categoryIds.Ids? && |b.categoryIds.ids| > 0 {
        var ok := UpdateServerCategories(id, Some(b.categoryIds.ids));
        assert (set l | l in old(links) && l.0 != id) == old(links);
        if !ok {
          return Failed(500, DatabaseError);
        }
      }
      r := Created(View(id));
    }

    /**
     * `PATCH ?name=`: 401, 400 without a name, 404 when the caller has no
     * server of that name; otherwise the row's fields are replaced (an absent
     * `transport` is left as it was) and, when `categoryIds` is given, its
     * links; `null` or an unknown category id answers 500 after the old links
     * are dropped.
     */
    method Patch(userId: Option<string>, name: Option<string>, body: Result<ServerBody, string>) returns (r: ApiResponse)
      requires Valid()
      modifies this
      ensures Valid()
      ensures !TruthyOpt(userId) ==> r == Failed(401, Message(UnauthorizedMessage))
      ensures TruthyOpt(userId) && !TruthyOpt(name) ==> r == Failed(400, Message(NameRequiredMessage))
      ensures TruthyOpt(userId) && TruthyOpt(name) && body.Ok? &&
              (forall id :: id in old(servers) ==> !(old(servers)[id].name == name.value && old(servers)[id].ownerId == userId.value))
              ==> r == Failed(404, Message(PatchNotFoundMessage))
      ensures r.Failed? && r.status != 500 ==> servers == old(servers) && links == old(links)
      ensures body.Err? ==> servers == old(servers) && links == old(links)
      ensures servers.Keys == old(servers).Keys
      ensures forall id :: id in servers && servers[id] != old(servers)[id] ==>
                TruthyOpt(userId) && TruthyOpt(name) && body.Ok? &&
                old(servers)[id].name == name.value && old(servers)[id].ownerId == userId.value &&
                servers[id] == Patched(old(servers)[id], body.value)
      ensures r.Updated? ==>
                TruthyOpt(userId) && TruthyOpt(name) && body.Ok? &&
                exists id :: id in servers && servers[id].name == name.value && servers[id].ownerId == userId.value &&
                             r.view == View(id) &&
                             (body.value.categoryIds.Undefined? ==> links == old(links)) &&
                             (body.value.categoryIds.Ids? ==> CategoryIdsOf(id) == set c | c in body.value.categoryIds.ids)
      ensures forall id :: TruthyOpt(userId) && TruthyOpt(name) && body.Ok? && id in old(servers) &&
                           old(servers)[id].name == name.value && old(servers)[id].ownerId == userId.value ==>
                servers == old(servers)[id := Patched(old(servers)[id], body.value)] &&
                var cs := body.value.categoryIds;
                var linked := cs.Ids? && KnownCategories(cs.ids);
                links == (if cs.Undefined? then old(links)
                          else (set l | l in old(links) && l.0 != id) + (if linked then LinksFor(id, cs.ids) else {})) &&
                r == (if cs.Null? then Failed(500, Message(NullLengthMessage))
                      else if cs.Ids? && !linked then Failed(500, DatabaseError)
                      else Updated(View(id)))
    {
      if !TruthyOpt(userId) {
        return Failed(401, Message(UnauthorizedMessage));
      }
      if !TruthyOpt(name) {
        return Failed(400, Message(NameRequiredMessage));
      }
      if body.Err? {
        return Failed(500, Message(body.error));
      }
      var b := body.value;
      var existing := FindUnique(name.value, userId.value);
      if existing.None? {
        return Failed(404, Message(PatchNotFoundMessage));
      }
      r := PatchRow(existing.value, b);
    }

    /** The writes of `PATCH` once the row is found: its fields, then, unless `categoryIds` is absent, its links. */
    method PatchRow(id: string, b: ServerBody) returns (r: ApiResponse)
      requires Valid() && id in servers
      modifies this
      ensures Valid()
      ensures servers == old(servers)[id := Patched(old(servers)[id], b)]
      ensures links == (if b.categoryIds.Undefined? then old(links)
                        else (set l | l in old(links) && l.0 != id) +
                             (if b.categoryIds.Ids? && KnownCategories(b.categoryIds.ids) then LinksFor(id, b.categoryIds.ids) else {}))
      ensures b.categoryIds.Null? ==> r == Failed(500, Message(NullLengthMessage))
      ensures b.categoryIds.Ids? && !KnownCategories(b.categoryIds.ids) ==> r == Failed(500, DatabaseError)
      ensures b.categoryIds.Undefined? || (b.categoryIds.Ids? && KnownCategories(b.categoryIds.ids)) ==> r == Updated(View(id))
      ensures b.categoryIds.Ids? && KnownCategories(b.categoryIds.ids) ==> CategoryIdsOf(id) == set c | c in b.categoryIds.ids
    {
      ReplaceRow(Patched(servers[id], b));
      if !b.categoryIds.Undefined? {
        var ok := UpdateServerCategories(id, if b.categoryIds.Ids? then Some(b.categoryIds.ids) else None);
        if b.categoryIds.Null? {
          return Failed(500, Message(NullLengthMessage));
        }
        if !ok {
          return Failed(500, DatabaseError);
        }
        ReplacementSetsCategories(old(links), id, b.categoryIds.ids);
      }
      r := Updated(View(id));
    }

    /** `DELETE ?name=`: removes the caller's server of that name and its links; 404 when there is none. */
    method Delete(userId: Option<string>, name: Option<string>) returns (r: ApiResponse)
      requires Valid()
      modifies this
      ensures Valid()
      ensures !TruthyOpt(userId) ==> r == Failed(401, Message(UnauthorizedMessage))
      ensures TruthyOpt(userId) && !TruthyOpt(name) ==> r == Failed(400, Message(NameRequiredMessage))
      ensures TruthyOpt(userId) && TruthyOpt(name) ==>
                var gone := set id | id in old(servers) && old(servers)[id].name == name.value && old(servers)[id].ownerId == userId.value;
                servers == old(servers) - gone &&
                links == set l | l in old(links) && l.0 !in gone &&
                (r == Deleted <==> gone != {}) &&
                (gone == {} ==> r == Failed(404, Message(DeleteNotFoundMessage)))
      ensures !(TruthyOpt(userId) && TruthyOpt(name)) ==> servers == old(servers) && links == old(links)
    {
      if !TruthyOpt(userId) {
        return Failed(401, Message(UnauthorizedMessage));
      }
      if !TruthyOpt(name) {
        return Failed(400, Message(NameRequiredMessage));
      }
      var gone := set id | id in servers && servers[id].name == name.value && servers[id].ownerId == userId.value;
      servers := servers - gone;
      links := set l | l in links && l.0 !in gone;
      if gone == {} {
        return Failed(404, Message(DeleteNotFoundMessage));
      }
      r := Deleted;
    }
  }

  /** Because `(name, ownerId)` is unique, a delete removes at most one server. */
  lemma {:induction false} DeleteRemovesAtMostOne(t: ServerTable, name: string, ownerId: string)
    requires t.Valid()
    ensures |set id | id in t.servers && t.servers[id].name == name && t.servers[id].ownerId == ownerId| <= 1
  {
    var gone := set id | id in t.servers && t.servers[id].name == name && t.servers[id].ownerId == ownerId;
    if gone != {} {
      var a :| a in gone;
      assert gone == {a};
    }
  }

  /** A replacement leaves exactly the listed categories on the server and every other server's links alone. */
  lemma {:induction false} ReplacementSetsCategories(old_links: set<(string, string)>, serverId: string, ids: seq<string>)
    ensures var links := (set l | l in old_links && l.0 != serverId) + LinksFor(serverId, ids);
            (set l | l in links && l.0 == serverId :: l.1) == (set c | c in ids) &&
            forall l: (string, string) :: l.0 != serverId ==> (l in links <==> l in old_links)
  {
    var links := (set l | l in old_links && l.0 != serverId) + LinksFor(serverId, ids);
    forall c | c in ids
      ensures c in (set l | l in links && l.0 == serverId :: l.1)
    {
      assert (serverId, c) in links;
    }
  }
}
