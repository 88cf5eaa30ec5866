/**
 * A Python `dict` with string keys, as the tracker uses it: an association
 * list in insertion order. Assigning to an existing key keeps its position;
 * a new key is appended at the end.
 */
module Dict {

  type Dict<V> = seq<(string, V)>

  /** The keys, in insertion order. */
  function Keys<V>(d: Dict<V>): seq<string> {
    seq(|d|, i requires 0 <= i < |d| => d[i].0)
  }

  predicate Has<V>(d: Dict<V>, k: string) {
    k in Keys(d)
  }

  /** No key occurs twice, as in every Python dict. */
  predicate Distinct<V>(d: Dict<V>) {
    forall i, j :: 0 <= i < j < |d| ==> d[i].0 != d[j].0
  }

  /** `d[k]`. */
  function Get<V>(d: Dict<V>, k: string): V
    requires Has(d, k)
  {
    KeysTail(d);
    if d[0].0 == k then d[0].1 else Get(d[1..], k)
  }

  /** In a dict without duplicates, the value stored at position `i` is the value of its key. */
  lemma {:induction false} GetAt<V>(d: Dict<V>, i: int)
    requires Distinct(d) && 0 <= i < |d|
    ensures Has(d, d[i].0) && Get(d, d[i].0) == d[i].1
  {
    KeysTail(d);
    assert Keys(d)[i] == d[i].0;
    if i > 0 {
      assert Distinct(d[1..]);
      GetAt(d[1..], i - 1);
    }
  }

  /** `d.get(k, default)`. */
  function GetOr<V>(d: Dict<V>, k: string, default: V): V {
    if Has(d, k) then Get(d, k) else default
  }

  /** `d[k] = v`. */
  function Put<V>(d: Dict<V>, k: string, v: V): Dict<V> {
    if |d| == 0 then [(k, v)]
    else if d[0].0 == k then [(k, v)] + d[1..]
    else [d[0]] + Put(d[1..], k, v)
  }

  lemma KeysTail<V>(d: Dict<V>)
    requires |d| > 0
    ensures Keys(d) == [d[0].0] + Keys(d[1..])
  {
  }

  /** An existing key keeps its place; a new key goes last. */
  lemma {:induction false} PutKeys<V>(d: Dict<V>, k: string, v: V)
    ensures Keys(Put(d, k, v)) == if Has(d, k) then Keys(d) else Keys(d) + [k]
  {
    if |d| != 0 {
      KeysTail(d);
      KeysTail(Put(d, k, v));
      if d[0].0 != k {
        PutKeys(d[1..], k, v);
      }
    }
  }

  /** After `d[k] = v`, `d[k]` is `v` and every other key keeps its value. */
  lemma {:induction false} PutGet<V>(d: Dict<V>, k: string, v: V)
    ensures Has(Put(d, k, v), k) && Get(Put(d, k, v), k) == v
    ensures forall j :: j != k && Has(d, j) ==> Has(Put(d, k, v), j) && Get(Put(d, k, v), j) == Get(d, j)
  {
    PutKeys(d, k, v);
    if |d| != 0 && d[0].0 != k {
      KeysTail(d);
      PutGet(d[1..], k, v);
      var r := Put(d, k, v);
      assert r[1..] == Put(d[1..], k, v);
      KeysTail(r);
    }
  }

  /** A second assignment to the same key overrides the first. */
  lemma {:induction false} PutPut<V>(d: Dict<V>, k: string, a: V, b: V)
    ensures Put(Put(d, k, a), k, b) == Put(d, k, b)
  {
    if |d| != 0 && d[0].0 != k {
      PutPut(d[1..], k, a, b);
      assert Put(d, k, a)[1..] == Put(d[1..], k, a);
    }
  }

  /** Assignment never introduces a duplicate key. */
  lemma PutDistinct<V>(d: Dict<V>, k: string, v: V)
    requires Distinct(d)
    ensures Distinct(Put(d, k, v))
  {
    PutKeys(d, k, v);
    var r := Put(d, k, v);
    assert forall i :: 0 <= i < |r| ==> r[i].0 == Keys(r)[i];
    assert forall i :: 0 <= i < |d| ==> d[i].0 == Keys(d)[i];
  }

  /** `sum(d.values())`. */
  function Sum(d: Dict<int>): int {
    if |d| == 0 then 0 else d[0].1 + Sum(d[1..])
  }

  /** Overwriting one value moves the sum by exactly the difference. */
  lemma {:induction false} PutSum(d: Dict<int>, k: string, v: int)
    ensures Sum(Put(d, k, v)) == Sum(d) - GetOr(d, k, 0) + v
  {
    if |d| != 0 {
      KeysTail(d);
      if d[0].0 != k {
        PutSum(d[1..], k, v);
      }
    }
  }
}
