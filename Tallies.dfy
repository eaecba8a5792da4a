/** A tally of keyword occurrences, as the unknown-keyword map keeps it. */
module Tallies {

  /** `m.get(k, 0)`. */
  function Count(m: map<string, nat>, k: string): nat {
    if k in m then m[k] else 0
  }

  /** `m[k] = m.get(k, 0) + 1`. */
  function Bump(m: map<string, nat>, k: string): map<string, nat> {
    m[k := Count(m, k) + 1]
  }

  /** Some key of a non-empty map. */
  ghost function AnyKey(m: map<string, nat>): (k: string)
    requires |m| != 0
    ensures k in m
  {
    assert m.Keys != {};
    var k :| k in m; k
  }

  /** The sum of a count map's values. */
  ghost function SumValues(m: map<string, nat>): nat
    decreases |m|
  {
    if |m| == 0 then 0 else m[AnyKey(m)] + SumValues(m - {AnyKey(m)})
  }

  lemma CardRemove(m: map<string, nat>, k: string)
    requires k in m
    ensures |m - {k}| == |m| - 1
  {
  }

  /** The sum does not depend on which key is taken out first. */
  lemma {:induction false} SumRemove(m: map<string, nat>, k: string)
    requires k in m
    ensures SumValues(m) == m[k] + SumValues(m - {k})
    decreases |m|
  {
    assert |m| != 0 by { assert k in m.Keys; }
    var j := AnyKey(m);
    if j != k {
      var mj, mk := m - {j}, m - {k};
      CardRemove(m, j);
      CardRemove(m, k);
      assert k in mj && mj[k] == m[k];
      assert j in mk && mk[j] == m[j];
      var rest := mj - {k};
      assert mk - {j} == rest;
      ghost var r, sj, sk := SumValues(rest), SumValues(mj), SumValues(mk);
      SumRemove(mj, k);
      assert sj == m[k] + r;
      SumRemove(mk, j);
      assert sk == m[j] + r;
    }
  }

  /** Counting one more occurrence of a keyword adds one to the total. */
  lemma BumpRest(m: map<string, nat>, k: string)
    ensures k in Bump(m, k) && Bump(m, k)[k] == Count(m, k) + 1
    ensures Bump(m, k) - {k} == m - {k}
  {
  }

  lemma SumBump(m: map<string, nat>, k: string)
    ensures SumValues(Bump(m, k)) == SumValues(m) + 1
  {
    BumpRest(m, k);
    SumRemove(Bump(m, k), k);
    if k in m {
      SumRemove(m, k);
    } else {
      assert m - {k} == m;
    }
  }
}
