/**
 * The client-side records the hooks share: a server as the catalogue lists
 * it, and a connection as the browser's connection store keeps it.
 */
module McpTypes {
  import opened Wrappers
  import opened JsObject

  const Connected := "CONNECTED"
  const Disconnected := "DISCONNECTED"

  datatype ToolInfo = ToolInfo(name: string)

  datatype CategoryTag = CategoryTag(slug: string)

  /** A stored connection; `serverId` and `tools` may be missing. */
  datatype StoredConnection = StoredConnection(
    sessionId: string,
    serverId: Option<string>,
    connectionStatus: string,
    tools: Option<seq<ToolInfo>>,
    connectedAt: string)

  /** A catalogue server; the connection fields are filled in by the merges. */
  datatype McpServer = McpServer(
    id: string,
    name: string,
    description: Option<string>,
    connectionStatus: Option<string>,
    sessionId: Option<string>,
    tools: Option<seq<ToolInfo>>,
    categories: Option<seq<CategoryTag>>)

  /** `Object.values(o)`. */
  function Values<V>(o: Entries<V>): (vs: seq<V>)
    ensures |vs| == |o| && forall i :: 0 <= i < |o| ==> vs[i] == o[i].1
  {
    seq(|o|, i requires 0 <= i < |o| => o[i].1)
  }

  /** `conns.find(c => c.serverId === id)`: the first connection recorded for server `id`. */
  function FirstByServerId(conns: seq<StoredConnection>, id: string): (r: Option<StoredConnection>)
    ensures r.None? <==> forall i :: 0 <= i < |conns| ==> conns[i].serverId != Some(id)
    ensures r.Some? ==> exists i :: 0 <= i < |conns| && conns[i] == r.value && r.value.serverId == Some(id) &&
                                    forall j :: 0 <= j < i ==> conns[j].serverId != Some(id)
  {
    if conns == [] then None
    else if conns[0].serverId == Some(id) then Some(conns[0])
    else
      var r := FirstByServerId(conns[1..], id);
      assert forall i :: 1 <= i < |conns| ==> conns[i] == conns[1..][i - 1];
      if r.Some? then
        var i :| 0 <= i < |conns[1..]| && conns[1..][i] == r.value && r.value.serverId == Some(id) &&
                 forall j :: 0 <= j < i ==> conns[1..][j].serverId != Some(id);
        assert conns[i + 1] == r.value;
        r
      else r
  }

  /** `xs.filter(p)`; `FilterAppend` shows that it keeps order. */
  function Filter<T(!new)>(xs: seq<T>, p: T -> bool): (r: seq<T>)
    ensures |r| <= |xs|
    ensures forall x :: x in r <==> x in xs && p(x)
  {
    if xs == [] then []
    else
      assert forall x :: x in xs <==> x == xs[0] || x in xs[1..];
      (if p(xs[0]) then [xs[0]] else []) + Filter(xs[1..], p)
  }

  /** Filtering keeps order: it distributes over concatenation. */
  lemma {:induction false} FilterAppend<T(!new)>(a: seq<T>, b: seq<T>, p: T -> bool)
    ensures Filter(a + b, p) == Filter(a, p) + Filter(b, p)
  {
    if a != [] {
      assert (a + b)[0] == a[0];
      assert (a + b)[1..] == a[1..] + b;
      FilterAppend(a[1..], b, p);
    } else {
      assert a + b == b;
    }
  }
}
