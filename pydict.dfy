/**
 * Python's built-in `dict` as the pipeline uses it: a mapping whose
 * iteration order is insertion order. A dictionary value is the sequence of
 * its (key, value) entries in that order; keys are pairwise distinct, as in
 * any Python dict. `Put` is `d[k] = v`, `Lookup` is `d.get(k)`.
 */
module PyDict {

  datatype Option<+T> = None | Some(value: T)

  /** The keys of `d`, in iteration order (`list(d)`). */
  function Keys<V>(d: seq<(string, V)>): seq<string>
  {
    seq(|d|, i requires 0 <= i < |d| => d[i].0)
  }

  /** No key occurs twice: what every Python dict guarantees. */
  predicate DistinctKeys<V>(d: seq<(string, V)>)
  {
    forall i, j | 0 <= i < j < |d| :: d[i].0 != d[j].0
  }

  /** `d.get(k)`: the value stored under `k`, if any. */
  function Lookup<V>(d: seq<(string, V)>, k: string): (r: Option<V>)
    ensures r.Some? <==> k in Keys(d)
  {
    if d == [] then None
    else
      assert Keys(d) == [d[0].0] + Keys(d[1..]);
      if d[0].0 == k then Some(d[0].1) else Lookup(d[1..], k)
  }

  /**
   * `d[k] = v`: an existing key keeps its position and takes the new value;
   * a new key is appended at the end of the iteration order.
   */
  function Put<V>(d: seq<(string, V)>, k: string, v: V): (r: seq<(string, V)>)
    requires DistinctKeys(d)
    ensures DistinctKeys(r)
    ensures k !in Keys(d) ==> r == d + [(k, v)]
    ensures k in Keys(d) ==>
      |r| == |d| && forall i | 0 <= i < |d| :: r[i] == if d[i].0 == k then (k, v) else d[i]
  {
    if d == [] then [(k, v)]
    else
      assert Keys(d) == [d[0].0] + Keys(d[1..]);
      if d[0].0 == k then [(k, v)] + d[1..] else [d[0]] + Put(d[1..], k, v)
  }

  /** In a dict, the entry at position `i` is what a lookup of its key finds. */
  lemma {:induction false} LookupAt<V>(d: seq<(string, V)>, i: nat)
    requires DistinctKeys(d) && i < |d|
    ensures Lookup(d, d[i].0) == Some(d[i].1)
  {
    if i > 0 {
      LookupAt(d[1..], i - 1);
    }
  }

  /** After `d[k] = v`, `k` maps to `v` and every other key to what it mapped to before. */
  lemma {:induction false} PutLookup<V>(d: seq<(string, V)>, k: string, v: V, k': string)
    requires DistinctKeys(d)
    ensures Lookup(Put(d, k, v), k') == if k' == k then Some(v) else Lookup(d, k')
  {
    if d != [] && d[0].0 != k {
      PutLookup(d[1..], k, v, k');
    }
  }
}
