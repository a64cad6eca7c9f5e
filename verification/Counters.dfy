/** A counter map: a stream that was never counted has no entry. */
module Counters {
  type Counter = map<string, nat>

  function Get(c: Counter, k: string): nat {
    if k in c then c[k] else 0
  }

  function Bump(c: Counter, k: string): Counter {
    if k in c then c[k := c[k] + 1] else c[k := 1]
  }

  lemma GetBump(c: Counter, k: string, j: string)
    ensures Get(Bump(c, k), j) == Get(c, j) + if j == k then 1 else 0
  {
  }

  ghost function Total(c: Counter): nat
    decreases |c|
  {
    if c == map[] then 0
    else
      var k :| k in c;
      c[k] + Total(c - {k})
  }

  /** The sum over the keys does not depend on the key that is taken first. */
  lemma {:induction false} TotalWithout(c: Counter, k: string)
    requires k in c
    ensures Total(c) == c[k] + Total(c - {k})
    decreases |c|
  {
    var j :| j in c && Total(c) == c[j] + Total(c - {j});
    if j != k {
      TotalWithout(c - {j}, k);
      TotalWithout(c - {k}, j);
      assert c - {j} - {k} == c - {k} - {j};
    }
  }

  lemma TotalBump(c: Counter, k: string)
    ensures Total(Bump(c, k)) == Total(c) + 1
  {
    var b := Bump(c, k);
    TotalWithout(b, k);
    if k in c {
      TotalWithout(c, k);
      assert b - {k} == c - {k};
    } else {
      assert b - {k} == c;
    }
  }
}
