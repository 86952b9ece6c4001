/**
 * Python dictionaries with string keys, kept in insertion order: a sequence
 * of key/value pairs. `Set` is `d[k] = v` (an existing key keeps its place,
 * a new key goes last) and `Update` is `d.update(e)`.
 */
module Dicts {
  import opened Values

  type Dict<V> = seq<(string, V)>

  predicate DistinctKeys<V>(d: Dict<V>)
  {
    forall i, j :: 0 <= i < j < |d| ==> d[i].0 != d[j].0
  }

  function Keys<V>(d: Dict<V>): set<string>
  {
    if d == [] then {} else {d[0].0} + Keys(d[1..])
  }

  lemma DistinctTail<V>(d: Dict<V>)
    requires d != [] && DistinctKeys(d)
    ensures DistinctKeys(d[1..]) && d[0].0 !in Keys(d[1..])
  {
    forall i, j | 0 <= i < j < |d[1..]| ensures d[1..][i].0 != d[1..][j].0 {
      assert d[1..][i] == d[i + 1] && d[1..][j] == d[j + 1];
    }
    forall i | 0 <= i < |d[1..]| ensures d[1..][i].0 != d[0].0 {
      assert d[1..][i] == d[i + 1];
    }
    NotInKeys(d[1..], d[0].0);
  }

  lemma {:induction false} NotInKeys<V>(d: Dict<V>, k: string)
    requires forall i :: 0 <= i < |d| ==> d[i].0 != k
    ensures k !in Keys(d)
  {
    if d != [] {
      assert forall i :: 0 <= i < |d[1..]| ==> d[1..][i] == d[i + 1];
      NotInKeys(d[1..], k);
    }
  }

  /** The position of a key. */
  function KeyIndex<V>(d: Dict<V>, k: string): (i: nat)
    requires k in Keys(d)
    ensures i < |d| && d[i].0 == k
  {
    if d[0].0 == k then 0 else 1 + KeyIndex(d[1..], k)
  }

  lemma {:induction false} KeysHas<V>(d: Dict<V>, i: nat)
    requires i < |d|
    ensures d[i].0 in Keys(d)
  {
    if i > 0 {
      assert d[1..][i - 1] == d[i];
      KeysHas(d[1..], i - 1);
    }
  }

  /** `d.get(k)`. */
  function Get<V>(d: Dict<V>, k: string): (r: Option<V>)
    ensures r.None? <==> k !in Keys(d)
  {
    if d == [] then None
    else if d[0].0 == k then Some(d[0].1)
    else Get(d[1..], k)
  }

  /** In a dictionary each key has one pair, and `get` finds its value. */
  lemma {:induction false} GetAt<V>(d: Dict<V>, i: nat)
    requires DistinctKeys(d) && i < |d|
    ensures Get(d, d[i].0) == Some(d[i].1)
  {
    if i > 0 {
      DistinctTail(d);
      assert d[1..][i - 1] == d[i];
      GetAt(d[1..], i - 1);
    }
  }

  /** `d.get(k, default)`. */
  function GetOr<V>(d: Dict<V>, k: string, default: V): V
  {
    match Get(d, k)
    case Some(v) => v
    case None => default
  }

  /** `d[k] = v`. */
  function Set<V>(d: Dict<V>, k: string, v: V): (r: Dict<V>)
    ensures Keys(r) == Keys(d) + {k}
    ensures Get(r, k) == Some(v)
    ensures forall k' :: k' != k ==> Get(r, k') == Get(d, k')
    ensures DistinctKeys(d) ==> DistinctKeys(r)
  {
    if d == [] then [(k, v)]
    else if d[0].0 == k then
      var r := [(k, v)] + d[1..];
      assert r[1..] == d[1..];
      assert DistinctKeys(d) ==> DistinctKeys(r) by {
        if DistinctKeys(d) {
          forall i, j | 0 <= i < j < |r| ensures r[i].0 != r[j].0 {
            assert r[j] == d[j];
            if i > 0 { assert r[i] == d[i]; }
          }
        }
      }
      r
    else
      var rest := Set(d[1..], k, v);
      var r := [d[0]] + rest;
      assert r[1..] == rest;
      assert DistinctKeys(d) ==> DistinctKeys(r) by {
        if DistinctKeys(d) {
          DistinctTail(d);
          forall i, j | 0 <= i < j < |r| ensures r[i].0 != r[j].0 {
            assert r[j] == rest[j - 1];
            if i > 0 {
              assert r[i] == rest[i - 1];
            } else {
              KeysHas(rest, j - 1);
            }
          }
        }
      }
      r
  }

  /** `d.update(e)`: the pairs of `e` set in order. */
  function Update<V>(d: Dict<V>, e: Dict<V>): Dict<V>
    decreases |e|
  {
    if e == [] then d else Update(Set(d, e[0].0, e[0].1), e[1..])
  }

  /** After `d.update(e)` a key of `e` holds `e`'s value and any other key keeps `d`'s. */
  lemma {:induction false} UpdateGet<V>(d: Dict<V>, e: Dict<V>, k: string)
    requires DistinctKeys(e)
    ensures Get(Update(d, e), k) == if k in Keys(e) then Get(e, k) else Get(d, k)
    ensures Keys(Update(d, e)) == Keys(d) + Keys(e)
    decreases |e|
  {
    if e != [] {
      DistinctTail(e);
      UpdateGet(Set(d, e[0].0, e[0].1), e[1..], k);
    }
  }

  lemma {:induction false} UpdateDistinct<V>(d: Dict<V>, e: Dict<V>)
    requires DistinctKeys(d)
    ensures DistinctKeys(Update(d, e))
    decreases |e|
  {
    if e != [] {
      UpdateDistinct(Set(d, e[0].0, e[0].1), e[1..]);
    }
  }

  /** The pairs of `d` whose key satisfies `p`, in order. */
  function Filter<V>(d: Dict<V>, p: string -> bool): (r: Dict<V>)
    ensures forall k :: k in Keys(r) <==> k in Keys(d) && p(k)
    ensures forall k :: p(k) ==> Get(r, k) == Get(d, k)
    ensures DistinctKeys(d) ==> DistinctKeys(r)
    decreases |d|
  {
    if d == [] then []
    else
      var rest := Filter(d[1..], p);
      if p(d[0].0) then
        var r := [d[0]] + rest;
        assert r[1..] == rest;
        assert DistinctKeys(d) ==> DistinctKeys(r) by {
          if DistinctKeys(d) {
            DistinctTail(d);
            forall i, j | 0 <= i < j < |r| ensures r[i].0 != r[j].0 {
              assert r[j] == rest[j - 1];
              if i > 0 {
                assert r[i] == rest[i - 1];
              } else {
                KeysHas(rest, j - 1);
              }
            }
          }
        }
        r
      else
        assert DistinctKeys(d) ==> DistinctKeys(d[1..]) by {
          if DistinctKeys(d) { DistinctTail(d); }
        }
        rest
  }

  /** The same keys in the same order, each value replaced by `f(key, value)`. */
  function MapValues<V, W>(d: Dict<V>, f: (string, V) -> W): (r: Dict<W>)
    ensures |r| == |d|
    ensures forall i :: 0 <= i < |d| ==> r[i] == (d[i].0, f(d[i].0, d[i].1))
  {
    if d == [] then [] else [(d[0].0, f(d[0].0, d[0].1))] + MapValues(d[1..], f)
  }
}
