/** Small datatypes shared by every module of the model. */
module Prelude {

  datatype Option<+T> = None | Some(value: T)

  datatype Result<+T, +E> = Ok(value: T) | Err(error: E)

  type byte = x: int | 0 <= x < 256

  /** SHA-256 as the stores use it: some total function from bytes to hex text. */
  type Hash = seq<byte> -> string
}

/** Sums over the values of a finite map, for the capacity arithmetic. */
module Sums {

  ghost function Sum(m: map<nat, int>): int
    decreases |m|
  {
    if m == map[] then 0 else
      var k :| k in m;
      assert |m - {k}| < |m| by { MinusOne(m, k); }
      m[k] + Sum(m - {k})
  }

  lemma MinusOne(m: map<nat, int>, k: nat)
    requires k in m
    ensures |m - {k}| == |m| - 1
  {
    assert (m - {k}).Keys == m.Keys - {k};
    assert |m.Keys| == |m| && |(m - {k}).Keys| == |m - {k}|;
  }

  /** The order in which keys are taken does not matter. */
  lemma {:induction false} SumTake(m: map<nat, int>, k: nat)
    requires k in m
    ensures Sum(m) == m[k] + Sum(m - {k})
    decreases |m|
  {
    var j :| j in m && Sum(m) == m[j] + Sum(m - {j});
    if j != k {
      MinusOne(m, j);
      MinusOne(m, k);
      SumTake(m - {j}, k);
      SumTake(m - {k}, j);
      assert m - {j} - {k} == m - {k} - {j};
    }
  }

  lemma SumPut(m: map<nat, int>, k: nat, v: int)
    ensures Sum(m[k := v]) == Sum(m) - (if k in m then m[k] else 0) + v
  {
    SumTake(m[k := v], k);
    assert m[k := v] - {k} == m - {k};
    if k in m {
      SumTake(m, k);
    } else {
      assert m - {k} == m;
    }
  }

  lemma {:induction false} SumLe(m: map<nat, int>, n: map<nat, int>)
    requires m.Keys == n.Keys
    requires forall k | k in m :: m[k] <= n[k]
    ensures Sum(m) <= Sum(n)
    decreases |m|
  {
    if m == map[] {
      assert n == map[];
    } else {
      var k :| k in m;
      MinusOne(m, k);
      SumTake(m, k);
      SumTake(n, k);
      SumLe(m - {k}, n - {k});
    }
  }

  lemma {:induction false} SumDifference(m: map<nat, int>, n: map<nat, int>, d: map<nat, int>)
    requires m.Keys == n.Keys == d.Keys
    requires forall k | k in m :: d[k] == m[k] - n[k]
    ensures Sum(d) == Sum(m) - Sum(n)
    decreases |m|
  {
    if m == map[] {
      assert n == map[] && d == map[];
    } else {
      var k :| k in m;
      MinusOne(m, k);
      SumTake(m, k);
      SumTake(n, k);
      SumTake(d, k);
      SumDifference(m - {k}, n - {k}, d - {k});
    }
  }

  lemma {:induction false} SumDropZeros(m: map<nat, int>, n: map<nat, int>)
    requires n.Keys <= m.Keys
    requires forall k | k in m :: if k in n then m[k] == n[k] else m[k] == 0
    ensures Sum(m) == Sum(n)
    decreases |m|
  {
    if m == map[] {
      assert n == map[];
    } else {
      var k :| k in m;
      MinusOne(m, k);
      SumTake(m, k);
      SumDropZeros(m - {k}, n - {k});
      if k in n {
        SumTake(n, k);
      } else {
        assert n - {k} == n;
      }
    }
  }

  lemma {:induction false} SumNonNegative(m: map<nat, int>)
    requires forall k | k in m :: m[k] >= 0
    ensures Sum(m) >= 0
    decreases |m|
  {
    if m != map[] {
      var k :| k in m && Sum(m) == m[k] + Sum(m - {k});
      MinusOne(m, k);
      SumNonNegative(m - {k});
    }
  }
}
