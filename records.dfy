/**
 * A plain JavaScript object seen as its own enumerable string-keyed
 * properties in the order they were first assigned. Assigning `o[k] = v`
 * overwrites the value in place when `k` is already a key and appends
 * `(k, v)` otherwise. JavaScript lists integer-like keys ("0", "5", ...)
 * before all others, in ascending order; that ordering is not modelled.
 */
module Records {
  import opened Wrappers

  type Record<V> = seq<(string, V)>

  function Keys<V>(r: Record<V>): seq<string>
  {
    if |r| == 0 then [] else [r[0].0] + Keys(r[1..])
  }

  /** No key occurs twice, as in every object `Object.entries` is applied to. */
  predicate UniqueKeys<V>(r: Record<V>)
  {
    forall i, j :: 0 <= i < j < |r| ==> r[i].0 != r[j].0
  }

  lemma {:induction false} KeysAt<V>(r: Record<V>)
    ensures |Keys(r)| == |r|
    ensures forall i :: 0 <= i < |r| ==> Keys(r)[i] == r[i].0
  {
    if |r| > 0 {
      KeysAt(r[1..]);
    }
  }

  /** Property read `o[k]`: the value stored under `k`, `None` for a missing key. */
  function Get<V>(r: Record<V>, k: string): (v: Option<V>)
    ensures v.Some? <==> k in Keys(r)
    ensures v.Some? ==> (k, v.value) in r
  {
    if |r| == 0 then None
    else if r[0].0 == k then Some(r[0].1)
    else Get(r[1..], k)
  }

  /** Property write `o[k] = v`. */
  function Assign<V>(r: Record<V>, k: string, v: V): (r': Record<V>)
    ensures Get(r', k) == Some(v)
    ensures forall k' :: k' != k ==> Get(r', k') == Get(r, k')
    ensures k in Keys(r) ==> Keys(r') == Keys(r)
    ensures k !in Keys(r) ==> r' == r + [(k, v)]
  {
    if |r| == 0 then [(k, v)]
    else if r[0].0 == k then [(k, v)] + r[1..]
    else [r[0]] + Assign(r[1..], k, v)
  }

  /** Assigning never introduces a duplicate key. */
  lemma AssignKeepsKeysUnique<V>(r: Record<V>, k: string, v: V)
    requires UniqueKeys(r)
    ensures UniqueKeys(Assign(r, k, v))
  {
    var r' := Assign(r, k, v);
    KeysAt(r);
    KeysAt(r');
    if k in Keys(r) {
      forall i, j | 0 <= i < j < |r'| ensures r'[i].0 != r'[j].0 {
        assert Keys(r')[i] == Keys(r)[i] && Keys(r')[j] == Keys(r)[j];
      }
    } else {
      forall i, j | 0 <= i < j < |r'| ensures r'[i].0 != r'[j].0 {
        if j == |r| {
          assert r'[i].0 == Keys(r)[i];
        }
      }
    }
  }
}
