/** Python's `dict` with string keys (the only kind this program builds):
    a finite mapping whose keys keep insertion order. A dict is the
    sequence of its items, no key occurring twice. */
module Dicts {
  import opened Wrappers

  predicate DistinctKeys<V>(items: seq<(string, V)>) {
    forall i, j :: 0 <= i < j < |items| ==> items[i].0 != items[j].0
  }

  type Dict<V> = items: seq<(string, V)> | DistinctKeys(items) witness []

  /** The keys in iteration order (`list(d)`). */
  function Keys<V>(d: seq<(string, V)>): (ks: seq<string>)
    ensures |ks| == |d|
    ensures forall i :: 0 <= i < |d| ==> ks[i] == d[i].0
  {
    seq(|d|, i requires 0 <= i < |d| => d[i].0)
  }

  /** Putting a new key in front of a dict gives a dict. */
  lemma Cons<V>(k: string, v: V, d: Dict<V>)
    requires k !in Keys(d)
    ensures DistinctKeys([(k, v)] + d)
    ensures Keys([(k, v)] + d) == [k] + Keys(d)
  {
    var r := [(k, v)] + d;
    forall i, j | 0 <= i < j < |r|
      ensures r[i].0 != r[j].0
    {
      if i == 0 {
        assert r[j].0 == Keys(d)[j - 1];
      } else {
        assert r[i] == d[i - 1] && r[j] == d[j - 1];
      }
    }
  }

  /** Looking up in a dict with a new key put in front. */
  lemma LookupCons<V>(k: string, v: V, d: Dict<V>, key: string)
    requires k !in Keys(d)
    ensures DistinctKeys([(k, v)] + d)
    ensures Lookup([(k, v)] + d, key) == if key == k then Some(v) else Lookup(d, key)
  {
    Cons(k, v, d);
    var r: Dict<V> := [(k, v)] + d;
    assert r[1..] == d;
  }

  /** A dict split around one item: adding that item to the front part
      gives a dict. */
  lemma NewKey<V>(front: Dict<V>, k: string, v: V, back: seq<(string, V)>, whole: Dict<V>)
    requires front + ([(k, v)] + back) == whole
    ensures k !in Keys(front)
    ensures DistinctKeys(front + [(k, v)])
    ensures (front + [(k, v)]) + back == whole
  {
    assert whole[|front|] == (k, v);
    forall j | 0 <= j < |front|
      ensures front[j].0 != k
    {
      assert whole[j] == front[j];
    }
    assert forall j :: 0 <= j <= |front| ==> (front + [(k, v)])[j] == whole[j];
  }

  /** Every suffix of a dict is a dict. */
  lemma SuffixIsDict<V>(d: Dict<V>, i: nat)
    requires i <= |d|
    ensures DistinctKeys(d[i..])
  {
  }

  /** `d.get(k)`: the value stored under `k`, if any. */
  function Lookup<V>(d: Dict<V>, k: string): (r: Option<V>)
    ensures r.None? <==> k !in Keys(d)
    ensures forall i :: 0 <= i < |d| && d[i].0 == k ==> r == Some(d[i].1)
  {
    if d == [] then None
    else if d[0].0 == k then Some(d[0].1)
    else
      var rest: Dict<V> := d[1..];
      assert Keys(d) == [d[0].0] + Keys(rest);
      Lookup(rest, k)
  }

  /** `d[k] = v`: an existing key keeps its place and gets the new value,
      a new key is added after all the others. */
  function Assign<V>(d: Dict<V>, k: string, v: V): (r: Dict<V>)
    ensures Keys(r) == if k in Keys(d) then Keys(d) else Keys(d) + [k]
    ensures Lookup(r, k) == Some(v)
    ensures forall k' :: k' != k ==> Lookup(r, k') == Lookup(d, k')
  {
    if k in Keys(d) then
      var r := seq(|d|, i requires 0 <= i < |d| => if d[i].0 == k then (k, v) else d[i]);
      assert Keys(r) == Keys(d);
      r
    else
      var r := d + [(k, v)];
      assert Keys(r) == Keys(d) + [k];
      r
  }
}
