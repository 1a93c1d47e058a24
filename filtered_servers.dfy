/**
 * `useMcpServersFiltered`: while a search text or a category is set, the
 * catalogue is fetched page by page from `/api/mcp`, "load more" appending
 * the next page; the servers shown are decorated with the connection state
 * kept in the browser. A fetch completes at once with an outcome given as a
 * parameter; every request's query string is logged.
 */
module FilteredServers {
  import opened Wrappers
  import opened Strings
  import opened JsObject
  import opened McpTypes
  import Pagination

  /** `Boolean(searchQuery?.trim() || categorySlug)`. */
  function IsFiltering(searchQuery: Option<string>, categorySlug: Option<string>): (b: bool)
    ensures b <==> (searchQuery.Some? && Trim(searchQuery.value) != []) || TruthyOpt(categorySlug)
  {
    (searchQuery.Some? && Truthy(Trim(searchQuery.value))) || TruthyOpt(categorySlug)
  }

  /** A search made only of white space does not filter. */
  lemma BlankSearchDoesNotFilter(searchQuery: string)
    requires forall i :: 0 <= i < |searchQuery| ==> IsJsWhitespace(searchQuery[i])
    ensures !IsFiltering(Some(searchQuery), None)
  {
    TrimEmptyIff(searchQuery);
  }

  /** The query string of a page request: `limit` and `offset` always, the trimmed search when non-empty. */
  function RequestParams(limit: nat, offset: nat, searchQuery: Option<string>): (q: seq<(string, string)>)
    ensures |q| >= 2 && q[0] == ("limit", Pagination.Decimal(limit)) && q[1] == ("offset", Pagination.Decimal(offset))
    ensures |q| == 3 <==> searchQuery.Some? && Trim(searchQuery.value) != []
    ensures |q| == 3 ==> q[2] == ("search", Trim(searchQuery.value))
  {
    [("limit", Pagination.Decimal(limit)), ("offset", Pagination.Decimal(offset))]
    + (if searchQuery.Some? && Truthy(Trim(searchQuery.value)) then [("search", Trim(searchQuery.value))] else [])
  }

  /**
   * `mergeWithConnectionState`: a stored CONNECTED entry under the server's id
   * supplies status and tools (its tools as they are, even missing);
   * otherwise the server's own status, or DISCONNECTED, and its tools, or none.
   */
  function MergeWithConnectionState(servers: seq<McpServer>, stored: Entries<StoredConnection>): (r: seq<McpServer>)
    ensures |r| == |servers|
    ensures forall i :: 0 <= i < |servers| ==>
              var s := Get(stored, servers[i].id);
              r[i] == if s.Some? && s.value.connectionStatus == Connected
                      then servers[i].(connectionStatus := Some(Connected), tools := s.value.tools)
                      else servers[i].(connectionStatus := Some(if TruthyOpt(servers[i].connectionStatus)
                                                                then servers[i].connectionStatus.value else Disconnected),
                                       tools := Some(servers[i].tools.GetOr([])))
  {
    seq(|servers|, i requires 0 <= i < |servers| =>
      var s := Get(stored, servers[i].id);
      if s.Some? && s.value.connectionStatus == Connected
      then servers[i].(connectionStatus := Some(Connected), tools := s.value.tools)
      else servers[i].(connectionStatus := Some(if TruthyOpt(servers[i].connectionStatus)
                                                then servers[i].connectionStatus.value else Disconnected),
                       tools := Some(servers[i].tools.GetOr([]))))
  }

  /** Every merged server has a status, and only a stored CONNECTED entry makes it CONNECTED when the server said otherwise. */
  lemma MergedStatus(servers: seq<McpServer>, stored: Entries<StoredConnection>, i: nat)
    requires i < |servers|
    ensures var m := MergeWithConnectionState(servers, stored)[i];
            m.connectionStatus.Some? && m.id == servers[i].id && m.name == servers[i].name &&
            (m.connectionStatus == Some(Connected) <==>
               (Get(stored, servers[i].id).Some? && Get(stored, servers[i].id).value.connectionStatus == Connected) ||
               servers[i].connectionStatus == Some(Connected))
  {
  }

  datatype ListData = ListData(edges: seq<McpServer>, pageInfo: Option<Pagination.PageInfo>)

  /** What a page request yields: the page, or the error it reported or raised. */
  datatype ListOutcome = Listed(data: ListData) | ListFailed(message: string)

  class FilteredServersHook {
    const searchQuery: Option<string>
    const categorySlug: Option<string>
    const limit: nat
    var data: Option<ListData>
    var loading: bool
    var error: Option<string>
    var isLoadingMore: bool
    var offset: nat
    var requests: seq<seq<(string, string)>>

    /** Pages are only held while filtering. */
    predicate Valid()
      reads this
    {
      !IsFiltering(searchQuery, categorySlug) ==> data == None
    }

    /** Filters set: the first page is fetched with offset 0. */
    constructor (searchQuery: Option<string>, categorySlug: Option<string>, limit: nat, first: ListOutcome)
      ensures Valid()
      ensures this.searchQuery == searchQuery && this.categorySlug == categorySlug && this.limit == limit
      ensures offset == 0 && !loading && !isLoadingMore
      ensures !IsFiltering(searchQuery, categorySlug) ==> data == None && requests == [] && error == None
      ensures IsFiltering(searchQuery, categorySlug) ==>
                requests == [RequestParams(limit, 0, searchQuery)] &&
                (first.Listed? ==> data == Some(first.data) && error == None) &&
                (first.ListFailed? ==> data == None && error == Some(first.message))
    {
      this.searchQuery := searchQuery;
      this.categorySlug := categorySlug;
      this.limit := limit;
      data := None;
      loading := false;
      error := None;
      isLoadingMore := false;
      offset := 0;
      requests := [];
      new;
      FetchServers(0, false, first);
    }

    /** `hasNextPage: pageInfo?.hasNextPage || false`. */
    function HasNextPage(): (b: bool)
      reads this
      ensures b <==> data.Some? && data.value.pageInfo.Some? && data.value.pageInfo.value.hasNextPage
    {
      data.Some? && data.value.pageInfo.Some? && data.value.pageInfo.value.hasNextPage
    }

    /** The servers shown: none unless filtering, else the fetched nodes merged with the stored connections. */
    function Servers(stored: Entries<StoredConnection>): (r: seq<McpServer>)
      reads this
      ensures !IsFiltering(searchQuery, categorySlug) ==> r == []
      ensures IsFiltering(searchQuery, categorySlug) ==>
                r == MergeWithConnectionState(if data.Some? then data.value.edges else [], stored)
    {
      if !IsFiltering(searchQuery, categorySlug) then []
      else MergeWithConnectionState(if data.Some? then data.value.edges else [], stored)
    }

    /**
     * `fetchServers(currentOffset, append)`: without filters the data is
     * cleared; otherwise an appending fetch adds the new page after the
     * loaded ones (when something is loaded) and any other fetch replaces
     * them. A failure keeps the data and records the message.
     */
    method FetchServers(currentOffset: nat, append: bool, outcome: ListOutcome)
      requires Valid()
      modifies this`data, this`loading, this`error, this`isLoadingMore, this`requests
      ensures Valid()
      ensures !IsFiltering(searchQuery, categorySlug) ==>
                data == None && requests == old(requests) && loading == old(loading) &&
                isLoadingMore == old(isLoadingMore) && error == old(error)
      ensures IsFiltering(searchQuery, categorySlug) ==>
                !loading && !isLoadingMore &&
                requests == old(requests) + [RequestParams(limit, currentOffset, searchQuery)] &&
                (outcome.ListFailed? ==> data == old(data) && error == Some(outcome.message)) &&
                (outcome.Listed? ==>
                   error == None &&
                   data == Some(if append && old(data).Some?
                                then ListData(old(data).value.edges + outcome.data.edges, outcome.data.pageInfo)
                                else outcome.data))
    {
      if !IsFiltering(searchQuery, categorySlug) {
        data := None;
        return;
      }
      loading := !append;
      error := None;
      requests := requests + [RequestParams(limit, currentOffset, searchQuery)];
      match outcome {
        case ListFailed(message) =>
          error := Some(message);
        case Listed(page) =>
          if append && data.Some? {
            data := Some(ListData(data.value.edges + page.edges, page.pageInfo));
          } else {
            data := Some(page);
          }
      }
      loading := false;
      isLoadingMore := false;
    }

    /** `loadMore`: nothing without a next page or while one is loading; else the offset advances by `limit` and that page is appended. */
    method LoadMore(outcome: ListOutcome)
      requires Valid()
      modifies this
      ensures Valid()
      ensures !old(HasNextPage()) || old(isLoadingMore) ==>
                data == old(data) && offset == old(offset) && requests == old(requests) && isLoadingMore == old(isLoadingMore) &&
                error == old(error) && loading == old(loading)
      ensures old(HasNextPage()) && !old(isLoadingMore) ==>
                offset == old(offset) + limit && !isLoadingMore && !loading &&
                requests == old(requests) + [RequestParams(limit, old(offset) + limit, searchQuery)] &&
                (outcome.Listed? ==> error == None &&
                                     data == Some(ListData(old(data).value.edges + outcome.data.edges, outcome.data.pageInfo))) &&
                (outcome.ListFailed? ==> data == old(data) && error == Some(outcome.message))
    {
      if !HasNextPage() || isLoadingMore {
        return;
      }
      isLoadingMore := true;
      offset := offset + limit;
      FetchServers(offset, true, outcome);
    }
  }
}
