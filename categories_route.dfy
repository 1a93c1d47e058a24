/**
 * `GET /api/categories`: every category, ordered by name, with `limit`
 * (default 50) and `offset` (default 0) paging and a `pageInfo` over the whole
 * table.
 */
module CategoriesRoute {
  import opened Wrappers
  import opened Pagination
  import opened ServersRoute

  /** Code-unit order on strings: a proper prefix comes first, else the first differing character decides. */
  predicate NameLe(a: string, b: string) {
    if a == [] then true
    else if b == [] then false
    else if a[0] != b[0] then a[0] < b[0]
    else NameLe(a[1..], b[1..])
  }

  lemma {:induction false} NameLeTotal(a: string, b: string)
    ensures NameLe(a, b) || NameLe(b, a)
    decreases |a|
  {
    if a != [] && b != [] && a[0] == b[0] {
      NameLeTotal(a[1..], b[1..]);
    }
  }

  predicate SortedByName(cs: seq<Category>) {
    forall i :: 0 <= i < |cs| - 1 ==> NameLe(cs[i].name, cs[i + 1].name)
  }

  /** `c` placed before the first category it does not come after. */
  function Insert(c: Category, sorted: seq<Category>): (r: seq<Category>)
    ensures multiset(r) == multiset(sorted) + multiset{c}
    ensures |r| == |sorted| + 1
    ensures r != [] && (r[0] == c || (sorted != [] && r[0] == sorted[0]))
  {
    if sorted == [] || NameLe(c.name, sorted[0].name) then [c] + sorted
    else
      assert sorted == [sorted[0]] + sorted[1..];
      [sorted[0]] + Insert(c, sorted[1..])
  }

  lemma {:induction false} InsertSorted(c: Category, sorted: seq<Category>)
    requires SortedByName(sorted)
    ensures SortedByName(Insert(c, sorted))
    decreases |sorted|
  {
    if sorted != [] && !NameLe(c.name, sorted[0].name) {
      NameLeTotal(c.name, sorted[0].name);
      InsertSorted(c, sorted[1..]);
      var rest := Insert(c, sorted[1..]);
      assert Insert(c, sorted) == [sorted[0]] + rest;
    }
  }

  /** `orderBy: { name: 'asc' }` over the table. */
  function OrderByName(cs: seq<Category>): (r: seq<Category>)
    ensures multiset(r) == multiset(cs) && |r| == |cs|
  {
    if cs == [] then []
    else
      assert cs == [cs[0]] + cs[1..];
      Insert(cs[0], OrderByName(cs[1..]))
  }

  /** The ordering is a sorted permutation of the table. */
  lemma {:induction false} OrderByNameSorted(cs: seq<Category>)
    ensures SortedByName(OrderByName(cs)) && multiset(OrderByName(cs)) == multiset(cs)
  {
    if cs != [] {
      OrderByNameSorted(cs[1..]);
      InsertSorted(cs[0], OrderByName(cs[1..]));
    }
  }

  datatype CategoryQuery = CategoryQuery(limit: Option<string>, offset: Option<string>)

  datatype CategoryResponse =
    | CategoryPage(edges: seq<Category>, pageInfo: PageInfo)
    | CategoryFailed(status: int, error: string)

  /**
   * `GET`: `skip: offset, take: limit` over the ordered table (a negative
   * limit counts from the end); `pageInfo` counts every category. A NaN
   * `limit` or `offset`, or a negative `offset`, is refused by the database (500).
   */
  function HandleCategories(q: CategoryQuery, table: seq<Category>): (r: CategoryResponse)
    ensures r.CategoryFailed? <==> !(IntParam(q.limit, 50).Int? && IntParam(q.offset, 0).Int? && IntParam(q.offset, 0).i >= 0)
    ensures r.CategoryPage? ==>
              r.edges == Take(OrderByName(table), IntParam(q.offset, 0).i, IntParam(q.limit, 50).i) &&
              r.pageInfo == MakePageInfo(IntParam(q.offset, 0), IntParam(q.limit, 50), |table|)
  {
    var limit := IntParam(q.limit, 50);
    var offset := IntParam(q.offset, 0);
    if !(limit.Int? && offset.Int? && offset.i >= 0) then CategoryFailed(500, QueryRejectedMessage)
    else CategoryPage(Take(OrderByName(table), offset.i, limit.i), MakePageInfo(offset, limit, |table|))
  }

  /** A page of a sorted sequence, taken from either end, is sorted. */
  lemma {:induction false} TakeSorted(all: seq<Category>, offset: nat, limit: int)
    requires SortedByName(all)
    ensures SortedByName(Take(all, offset, limit))
  {
    var page := Take(all, offset, limit);
    var lo := TakeStart(|all|, offset, limit);
    forall i | 0 <= i < |page| - 1
      ensures NameLe(page[i].name, page[i + 1].name)
    {
      assert page[i] == all[lo + i] && page[i + 1] == all[lo + i + 1];
    }
  }

  /** Each page is sorted by name. */
  lemma {:induction false} CategoryPagesSorted(q: CategoryQuery, table: seq<Category>)
    ensures var r := HandleCategories(q, table);
            r.CategoryPage? ==> SortedByName(r.edges)
  {
    OrderByNameSorted(table);
    if HandleCategories(q, table).CategoryPage? {
      TakeSorted(OrderByName(table), IntParam(q.offset, 0).i, IntParam(q.limit, 50).i);
    }
  }

  /** Without parameters the first 50 categories come back, with no previous page. */
  lemma DefaultCategoryPage(table: seq<Category>)
    ensures var r := HandleCategories(CategoryQuery(None, None), table);
            r.CategoryPage? && |r.edges| == (if |table| < 50 then |table| else 50) &&
            !r.pageInfo.hasPreviousPage && (r.pageInfo.hasNextPage <==> |table| > 50)
  {
  }
}
