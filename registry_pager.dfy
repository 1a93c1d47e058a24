/**
 * `useRegistryServers`: cursor paging over the public registry. The hook keeps
 * the cursor of the page on screen, the registry's cursor for the next one,
 * and a stack of the cursors of the pages before it ("" standing for the
 * first page). A fetch is modelled as completing at once with an outcome
 * given as a parameter; every request the hook makes is logged.
 */
module RegistryPager {
  import opened Wrappers
  import opened Strings
  import Pagination

  /** The outcome of `fetch('/api/registry?...')`. */
  datatype FetchOutcome =
    | Fetched(servers: seq<string>, nextCursor: Option<string>)
    | FetchFailed(message: string)

  /** The query string of one registry request, in the order the parameters are appended. */
  function RequestQuery(search: Option<string>, itemsPerPage: nat, cursor: Option<string>): (q: seq<(string, string)>)
    ensures (exists i :: 0 <= i < |q| && q[i].0 == "cursor") <==> TruthyOpt(cursor)
    ensures (exists i :: 0 <= i < |q| && q[i].0 == "search") <==> TruthyOpt(search)
  {
    var s := if TruthyOpt(search) then [("search", search.value)] else [];
    var c := if TruthyOpt(cursor) then [("cursor", cursor.value)] else [];
    var q := s + [("limit", Pagination.Decimal(itemsPerPage))] + c;
    assert TruthyOpt(cursor) ==> q[|q| - 1].0 == "cursor";
    assert TruthyOpt(search) ==> q[0].0 == "search";
    q
  }

  class Pager {
    const search: Option<string>
    const itemsPerPage: nat
    var servers: seq<string>
    var loading: bool
    var error: Option<string>
    var currentCursor: Option<string>
    var nextCursor: Option<string>
    var cursorHistory: seq<string>
    /** The cursor of every request made, oldest first. */
    var requests: seq<Option<string>>

    /** The cursor on screen is the first page or a cursor the registry handed out, never "". */
    predicate Valid()
      reads this
    {
      currentCursor != Some("")
    }

    /** `hasNextPage`: the registry gave a next cursor (an empty one counts). */
    function HasNextPage(): (b: bool)
      reads this
      ensures b <==> nextCursor.Some?
    {
      nextCursor != None
    }

    function HasPreviousPage(): (b: bool)
      reads this
      ensures b <==> cursorHistory != []
    {
      |cursorHistory| > 0
    }

    /** Mounting: the cursors are reset and the first page is fetched. */
    constructor (search: Option<string>, itemsPerPage: nat, first: FetchOutcome)
      ensures Valid()
      ensures this.search == search && this.itemsPerPage == itemsPerPage
      ensures requests == [None] && cursorHistory == [] && !loading
      ensures first.Fetched? ==> servers == first.servers && nextCursor == first.nextCursor &&
                                 currentCursor == None && error == None
      ensures first.FetchFailed? ==> servers == [] && nextCursor == None && currentCursor == None &&
                                     error == Some(first.message)
    {
      this.search := search;
      this.itemsPerPage := itemsPerPage;
      servers := [];
      error := None;
      currentCursor := None;
      nextCursor := None;
      cursorHistory := [];
      requests := [None];
      loading := false;
      new;
      if first.Fetched? {
        servers := first.servers;
        nextCursor := first.nextCursor;
      } else {
        error := Some(first.message);
      }
    }

    /**
     * `fetchServers(cursor)`: on success the page, the next cursor and the
     * current cursor are replaced; on failure only the error is set.
     */
    method FetchServers(cursor: Option<string>, outcome: FetchOutcome)
      requires Valid() && cursor != Some("")
      modifies this`servers, this`loading, this`error, this`currentCursor, this`nextCursor, this`requests
      ensures Valid()
      ensures requests == old(requests) + [cursor] && !loading
      ensures outcome.Fetched? ==> servers == outcome.servers && nextCursor == outcome.nextCursor &&
                                   currentCursor == cursor && error == None
      ensures outcome.FetchFailed? ==> servers == old(servers) && nextCursor == old(nextCursor) &&
                                       currentCursor == old(currentCursor) && error == Some(outcome.message)
    {
      loading := true;
      error := None;
      requests := requests + [cursor];
      match outcome {
        case Fetched(page, next) =>
          servers := page;
          nextCursor := next;
          currentCursor := cursor;
        case FetchFailed(message) =>
          error := Some(message);
      }
      loading := false;
    }

    /** `goToNextPage`: nothing without a non-empty next cursor; else the current cursor is stacked and the next page fetched. */
    method GoToNextPage(outcome: FetchOutcome)
      requires Valid()
      modifies this
      ensures Valid()
      ensures !TruthyOpt(old(nextCursor)) ==> requests == old(requests) && cursorHistory == old(cursorHistory) &&
                                               currentCursor == old(currentCursor) && nextCursor == old(nextCursor) &&
                                               servers == old(servers) && error == old(error) && loading == old(loading)
      ensures TruthyOpt(old(nextCursor)) ==>
                cursorHistory == old(cursorHistory) + [old(currentCursor).GetOr("")] &&
                requests == old(requests) + [old(nextCursor)] && !loading &&
                (outcome.Fetched? ==> currentCursor == old(nextCursor) && servers == outcome.servers &&
                                      nextCursor == outcome.nextCursor && error == None) &&
                (outcome.FetchFailed? ==> currentCursor == old(currentCursor) && servers == old(servers) &&
                                          nextCursor == old(nextCursor) && error == Some(outcome.message))
    {
      if !TruthyOpt(nextCursor) {
        return;
      }
      cursorHistory := cursorHistory + [currentCursor.GetOr("")];
      FetchServers(nextCursor, outcome);
    }

    /** `goToPreviousPage`: pops the last stacked cursor and fetches it, "" meaning the first page. */
    method GoToPreviousPage(outcome: FetchOutcome)
      requires Valid()
      modifies this
      ensures Valid()
      ensures old(cursorHistory) == [] ==> requests == old(requests) && cursorHistory == [] &&
                                           currentCursor == old(currentCursor) && nextCursor == old(nextCursor) &&
                                           servers == old(servers) && error == old(error) && loading == old(loading)
      ensures old(cursorHistory) != [] ==>
                var top := old(cursorHistory)[|old(cursorHistory)| - 1];
                var cursor := if top == "" then None else Some(top);
                cursorHistory == old(cursorHistory)[..|old(cursorHistory)| - 1] &&
                requests == old(requests) + [cursor] && !loading &&
                (outcome.Fetched? ==> currentCursor == cursor && servers == outcome.servers &&
                                      nextCursor == outcome.nextCursor && error == None) &&
                (outcome.FetchFailed? ==> currentCursor == old(currentCursor) && servers == old(servers) &&
                                          nextCursor == old(nextCursor) && error == Some(outcome.message))
    {
      if |cursorHistory| == 0 {
        return;
      }
      var top := cursorHistory[|cursorHistory| - 1];
      cursorHistory := cursorHistory[..|cursorHistory| - 1];
      FetchServers(if top == "" then None else Some(top), outcome);
    }

    /** `refetch`: everything is cleared and the first page fetched again. */
    method Refetch(outcome: FetchOutcome)
      requires Valid()
      modifies this
      ensures Valid()
      ensures cursorHistory == [] && requests == old(requests) + [None] && !loading
      ensures outcome.Fetched? ==> servers == outcome.servers && nextCursor == outcome.nextCursor &&
                                   currentCursor == None && error == None
      ensures outcome.FetchFailed? ==> servers == [] && nextCursor == None && currentCursor == None &&
                                       error == Some(outcome.message)
    {
      servers := [];
      currentCursor := None;
      nextCursor := None;
      cursorHistory := [];
      FetchServers(None, outcome);
    }
  }

  /** Going forward then back (both fetches succeeding) requests the page that was on screen again, and restores the stack. */
  method NextThenPrevious(p: Pager, forward: FetchOutcome, back: FetchOutcome)
    requires p.Valid() && TruthyOpt(p.nextCursor) && forward.Fetched? && back.Fetched?
    modifies p
    ensures p.Valid()
    ensures p.requests == old(p.requests) + [old(p.nextCursor), old(p.currentCursor)]
    ensures p.currentCursor == old(p.currentCursor) && p.cursorHistory == old(p.cursorHistory)
    ensures p.servers == back.servers
  {
    p.GoToNextPage(forward);
    p.GoToPreviousPage(back);
  }

  /** A next cursor of "" shows a next page that `goToNextPage` never fetches. */
  method EmptyNextCursorIsStuck(p: Pager, outcome: FetchOutcome)
    requires p.Valid() && p.nextCursor == Some("")
    modifies p
    ensures p.HasNextPage() && p.requests == old(p.requests) && p.servers == old(p.servers)
  {
    p.GoToNextPage(outcome);
  }
}
