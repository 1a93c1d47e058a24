/**
 * A JavaScript object used as a dictionary: its entries in insertion order.
 * `Object.entries`, `Object.values` and `Object.keys` walk them in that order;
 * assigning to an existing key keeps its place, a new key goes at the end.
 * (JavaScript lists integer-like keys first, in ascending order; the model
 * does not, and keeps insertion order for every key.)
 */
module JsObject {
  import opened Wrappers

  type Entries<V> = seq<(string, V)>

  function Keys<V>(o: Entries<V>): (ks: set<string>)
    ensures forall i :: 0 <= i < |o| ==> o[i].0 in ks
  {
    if o == [] then {}
    else
      var rest := Keys(o[1..]);
      assert forall i :: 1 <= i < |o| ==> o[i] == o[1..][i - 1];
      {o[0].0} + rest
  }

  /** No key occurs twice, as in every object the runtime builds. */
  predicate DistinctKeys<V>(o: Entries<V>) {
    o == [] || (o[0].0 !in Keys(o[1..]) && DistinctKeys(o[1..]))
  }

  /** `o[k]`: the value stored under `k`, if any. */
  function Get<V>(o: Entries<V>, k: string): (r: Option<V>)
    ensures r.Some? <==> k in Keys(o)
    ensures r.Some? ==> exists i :: 0 <= i < |o| && o[i] == (k, r.value)
  {
    if o == [] then None
    else if o[0].0 == k then Some(o[0].1)
    else
      var r := Get(o[1..], k);
      assert r.Some? ==> exists i :: 0 <= i < |o[1..]| && o[1..][i] == (k, r.value);
      r
  }

  /** `o[k] = v`: an existing key keeps its place, a new one goes last. */
  function Put<V>(o: Entries<V>, k: string, v: V): (r: Entries<V>)
    ensures |r| == if k in Keys(o) then |o| else |o| + 1
  {
    if o == [] then [(k, v)]
    else if o[0].0 == k then [(k, v)] + o[1..]
    else [o[0]] + Put(o[1..], k, v)
  }

  /** After `o[k] = v`, `k` reads `v` and every other key reads what it did. */
  lemma {:induction false} PutGet<V>(o: Entries<V>, k: string, v: V, j: string)
    ensures Get(Put(o, k, v), j) == if j == k then Some(v) else Get(o, j)
    decreases |o|
  {
    if o != [] && o[0].0 != k {
      PutGet(o[1..], k, v, j);
      assert Put(o, k, v)[1..] == Put(o[1..], k, v);
    }
  }

  /** `o[k] = v` adds `k` to the keys and keeps them distinct. */
  lemma {:induction false} PutKeys<V>(o: Entries<V>, k: string, v: V)
    ensures Keys(Put(o, k, v)) == Keys(o) + {k}
    ensures DistinctKeys(o) ==> DistinctKeys(Put(o, k, v))
    decreases |o|
  {
    var r := Put(o, k, v);
    if o == [] {
    } else if o[0].0 == k {
      assert r[1..] == o[1..];
      assert Keys(r) == {k} + Keys(o[1..]);
    } else {
      PutKeys(o[1..], k, v);
      assert r[1..] == Put(o[1..], k, v);
      assert Keys(r) == {o[0].0} + Keys(Put(o[1..], k, v));
    }
  }

  /** `Object.entries(o).filter(([k, _]) => keep(k))` collected back into an object. */
  function FilterKeys<V>(o: Entries<V>, keep: string -> bool): (r: Entries<V>)
    ensures |r| <= |o|
  {
    if o == [] then []
    else if keep(o[0].0) then [o[0]] + FilterKeys(o[1..], keep)
    else FilterKeys(o[1..], keep)
  }

  /** A filtered object holds exactly the entries whose key passes, with the values they had. */
  lemma {:induction false} FilterKeysGet<V>(o: Entries<V>, keep: string -> bool, k: string)
    ensures Get(FilterKeys(o, keep), k) == if keep(k) then Get(o, k) else None
    decreases |o|
  {
    if o != [] {
      FilterKeysGet(o[1..], keep, k);
    }
  }

  /** `Object.entries(o).filter(([_, v]) => keep(v))` collected back into an object. */
  function FilterValues<V>(o: Entries<V>, keep: V -> bool): (r: Entries<V>)
    ensures |r| <= |o|
  {
    if o == [] then []
    else if keep(o[0].1) then [o[0]] + FilterValues(o[1..], keep)
    else FilterValues(o[1..], keep)
  }

  /** In an object, filtering on values keeps a key exactly when its value passes. */
  lemma {:induction false} FilterValuesGet<V>(o: Entries<V>, keep: V -> bool, k: string)
    requires DistinctKeys(o)
    ensures Get(FilterValues(o, keep), k) == if Get(o, k).Some? && keep(Get(o, k).value) then Get(o, k) else None
    decreases |o|
  {
    if o != [] {
      FilterValuesGet(o[1..], keep, k);
      if o[0].0 == k {
        FilterValuesKeys(o[1..], keep);
      }
    }
  }

  lemma {:induction false} FilterValuesKeys<V>(o: Entries<V>, keep: V -> bool)
    ensures Keys(FilterValues(o, keep)) <= Keys(o)
    decreases |o|
  {
    if o != [] {
      FilterValuesKeys(o[1..], keep);
    }
  }

  /** How many entries' values satisfy `p`. */
  function CountValues<V>(o: Entries<V>, p: V -> bool): (n: nat)
    ensures n <= |o|
    ensures n == |FilterValues(o, p)|
  {
    if o == [] then 0 else (if p(o[0].1) then 1 else 0) + CountValues(o[1..], p)
  }

  /**
   * The object built by visiting `xs` in order and assigning `o[key(x)] = val(x)`
   * for each `x` that `keep` accepts.
   */
  function FromList<T, V>(xs: seq<T>, keep: T -> bool, key: T -> string, val: T -> V): Entries<V> {
    if xs == [] then []
    else
      var prev := FromList(xs[..|xs| - 1], keep, key, val);
      var x := xs[|xs| - 1];
      if keep(x) then Put(prev, key(x), val(x)) else prev
  }

  /** The value of the last kept element with key `k`, if any. */
  function LastWith<T, V>(xs: seq<T>, keep: T -> bool, key: T -> string, val: T -> V, k: string): (r: Option<V>)
    ensures r.None? <==> forall i :: 0 <= i < |xs| ==> !(keep(xs[i]) && key(xs[i]) == k)
    ensures r.Some? ==> exists i :: 0 <= i < |xs| && keep(xs[i]) && key(xs[i]) == k && r.value == val(xs[i]) &&
                                    forall j :: i < j < |xs| ==> !(keep(xs[j]) && key(xs[j]) == k)
  {
    if xs == [] then None
    else
      var x := xs[|xs| - 1];
      if keep(x) && key(x) == k then Some(val(x))
      else LastWith(xs[..|xs| - 1], keep, key, val, k)
  }

  /** Later assignments win: each key holds the value of the last kept element carrying it. */
  lemma {:induction false} FromListGet<T, V>(xs: seq<T>, keep: T -> bool, key: T -> string, val: T -> V, k: string)
    ensures Get(FromList(xs, keep, key, val), k) == LastWith(xs, keep, key, val, k)
    decreases |xs|
  {
    if xs != [] {
      var x := xs[|xs| - 1];
      FromListGet(xs[..|xs| - 1], keep, key, val, k);
      if keep(x) {
        PutGet(FromList(xs[..|xs| - 1], keep, key, val), key(x), val(x), k);
      }
    }
  }

  /** The keys are those of the kept elements, each once. */
  lemma {:induction false} FromListKeys<T, V>(xs: seq<T>, keep: T -> bool, key: T -> string, val: T -> V)
    ensures DistinctKeys(FromList(xs, keep, key, val))
    ensures forall k :: k in Keys(FromList(xs, keep, key, val)) <==> exists i :: 0 <= i < |xs| && keep(xs[i]) && key(xs[i]) == k
    decreases |xs|
  {
    if xs != [] {
      var x := xs[|xs| - 1];
      var init := xs[..|xs| - 1];
      FromListKeys(init, keep, key, val);
      if keep(x) {
        PutKeys(FromList(init, keep, key, val), key(x), val(x));
      }
      forall k | exists i :: 0 <= i < |xs| && keep(xs[i]) && key(xs[i]) == k
        ensures k in Keys(FromList(xs, keep, key, val))
      {
        var i :| 0 <= i < |xs| && keep(xs[i]) && key(xs[i]) == k;
        if i < |xs| - 1 {
          assert init[i] == xs[i];
        }
      }
      forall k | k in Keys(FromList(xs, keep, key, val))
        ensures exists i :: 0 <= i < |xs| && keep(xs[i]) && key(xs[i]) == k
      {
        if !(keep(x) && key(x) == k) {
          var i :| 0 <= i < |init| && keep(init[i]) && key(init[i]) == k;
          assert xs[i] == init[i];
        }
      }
    }
  }
}
