/** What several modules need. */
module Basics {

  datatype Option<+T> = None | Some(value: T)

  /** CX_MAX_CALLS (cx.h) */
  const MAX_CALLS: nat := 64

  /** Different numbers below `n` are at most `n`. */
  lemma {:induction false} Distinct(q: seq<nat>, n: nat)
    requires (forall k :: 0 <= k < |q| ==> q[k] < n) && (forall j, k :: 0 <= j < k < |q| ==> q[j] != q[k])
    ensures |q| <= n
    decreases n
  {
    if q != [] {
      assert q[0] < n;
      if n - 1 in q {
        var k :| 0 <= k < |q| && q[k] == n - 1;
        var r := q[..k] + q[k + 1..];
        forall i | 0 <= i < |r| ensures r[i] < n - 1 { assert r[i] == if i < k then q[i] else q[i + 1]; }
        Distinct(r, n - 1);
      } else {
        Distinct(q, n - 1);
      }
    }
  }
}
