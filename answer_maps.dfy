/**
 * Answer maps are JavaScript objects from question ids to numbers.  This module
 * gives them an order-independent sum, the object spread that writes one key,
 * and the lemmas that let a loop over the keys, in whatever order the keys come,
 * be compared with that sum.
 */
module AnswerMaps {
  import opened Wrappers
  import opened Text

  /** The sum of all values of `m`, in no particular order. */
  ghost function MapSum<K>(m: map<K, int>): int
    decreases |m|
  {
    if m == map[] then 0
    else
      var k :| k in m;
      m[k] + MapSum(m - {k})
  }

  /** Taking any key out first gives the same sum: the order of the keys does not matter. */
  lemma {:induction false} SumRemove<K>(m: map<K, int>, k: K)
    requires k in m
    ensures MapSum(m) == m[k] + MapSum(m - {k})
    decreases |m|
  {
    var j :| j in m && MapSum(m) == m[j] + MapSum(m - {j});
    if j != k {
      SumRemove(m - {j}, k);
      SumRemove(m - {k}, j);
      assert m - {j} - {k} == m - {k} - {j};
    }
  }

  /** A map whose values are all non-negative has a non-negative sum. */
  lemma {:induction false} SumNonNegative<K>(m: map<K, int>)
    requires forall k :: k in m ==> m[k] >= 0
    ensures MapSum(m) >= 0
    decreases |m|
  {
    if m != map[] {
      var k :| k in m;
      SumRemove(m, k);
      SumNonNegative(m - {k});
    }
  }

  /** `{ ...m, [k]: v }`: the object spread that writes one key. */
  function Put<K, V>(m: map<K, V>, k: K, v: V): (r: map<K, V>)
    ensures r.Keys == m.Keys + {k}
    ensures r[k] == v
    ensures forall j :: j in m && j != k ==> r[j] == m[j]
  {
    m[k := v]
  }

  /** Writing the same key with the same value twice is the same as writing it once. */
  lemma PutIdempotent<K, V>(m: map<K, V>, k: K, v: V)
    ensures Put(Put(m, k, v), k, v) == Put(m, k, v)
  {
  }

  /** Writing one key changes the sum by the difference between the new and the old value. */
  lemma PutSum<K>(m: map<K, int>, k: K, v: int)
    ensures MapSum(Put(m, k, v)) == MapSum(m) - (if k in m then m[k] else 0) + v
  {
    var r := Put(m, k, v);
    SumRemove(r, k);
    if k in m {
      SumRemove(m, k);
      assert r - {k} == m - {k};
    } else {
      assert r - {k} == m;
    }
  }

  /** No key occurs twice in `ks`. */
  predicate Distinct<K(==)>(ks: seq<K>)
  {
    forall i, j :: 0 <= i < j < |ks| ==> ks[i] != ks[j]
  }

  /**
   * `String(id)` of each id, in order: the object keys the ids are stored
   * under.  Each key parses back to its id, so the keys are distinct exactly
   * when the ids are.
   */
  function KeysOf(ids: seq<int>): (r: seq<string>)
    ensures |r| == |ids|
    ensures forall i :: 0 <= i < |ids| ==> ParseInt(r[i]) == Some(ids[i])
    ensures Distinct(r) <==> Distinct(ids)
  {
    var r := seq(|ids|, i requires 0 <= i < |ids| => NumberKey(ids[i]));
    assert forall i :: 0 <= i < |ids| ==> ParseInt(r[i]) == Some(ids[i]) by {
      forall i | 0 <= i < |ids| ensures ParseInt(r[i]) == Some(ids[i]) {
        ParseNumberKey(ids[i]);
      }
    }
    r
  }

  /** The values of `m` at the keys `ks`, taken in order, with 0 for a missing key. */
  ghost function SumAt<K>(m: map<K, int>, ks: seq<K>): int
  {
    if ks == [] then 0
    else
      var k := ks[|ks| - 1];
      SumAt(m, ks[..|ks| - 1]) + (if k in m then m[k] else 0)
  }

  /**
   * When every key of `m` is among the distinct keys `ks`, the order-free sum of
   * `m` is the sum taken along `ks`.
   */
  lemma {:induction false} SumOverCover<K>(m: map<K, int>, ks: seq<K>)
    requires Distinct(ks)
    requires forall k :: k in m ==> k in ks
    ensures MapSum(m) == SumAt(m, ks)
    decreases |ks|
  {
    if ks == [] {
      assert m == map[];
    } else {
      var front, k := ks[..|ks| - 1], ks[|ks| - 1];
      assert forall j :: j in front ==> j != k;
      if k in m {
        var rest := m - {k};
        SumRemove(m, k);
        assert forall j :: j in rest ==> j in front by {
          forall j | j in rest ensures j in front {
            assert j in ks && j != k;
            var i :| 0 <= i < |ks| && ks[i] == j;
            assert i < |ks| - 1 && front[i] == j;
          }
        }
        SumOverCover(rest, front);
        SumAtAgree(m, rest, front);
      } else {
        assert forall j :: j in m ==> j in front by {
          forall j | j in m ensures j in front {
            var i :| 0 <= i < |ks| && ks[i] == j;
            assert i < |ks| - 1 && front[i] == j;
          }
        }
        SumOverCover(m, front);
      }
    }
  }

  /** Two maps that agree at every key of `ks` have the same sum along `ks`. */
  lemma {:induction false} SumAtAgree<K>(m: map<K, int>, m': map<K, int>, ks: seq<K>)
    requires forall k :: k in ks ==> (k in m <==> k in m') && (k in m ==> m[k] == m'[k])
    ensures SumAt(m, ks) == SumAt(m', ks)
    decreases |ks|
  {
    if ks != [] {
      var front := ks[..|ks| - 1];
      assert forall k :: k in front ==> k in ks;
      SumAtAgree(m, m', front);
    }
  }
}
