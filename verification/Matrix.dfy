/** Row-major matrices in flat buffers. */
module Matrix {
  import opened Arith

  /** Flat index of row `i`, column `j` in rows of width `w`. */
  function At(i: nat, w: nat, j: nat): nat {
    i * w + j
  }

  lemma AtBound(i: nat, m: nat, w: nat, j: nat)
    requires i < m && j < w
    ensures At(i, w, j) < m * w
  {
    MulStep(i, m, w);
  }

  lemma AtUnique(i0: nat, j0: nat, i1: nat, j1: nat, w: nat)
    requires j0 < w && j1 < w && At(i0, w, j0) == At(i1, w, j1)
    ensures i0 == i1 && j0 == j1
  {
    EuclidUnique(w, i0, j0, i1, j1);
  }

  lemma AtDiv(i: nat, w: nat, j: nat)
    requires j < w
    ensures At(i, w, j) / w == i && At(i, w, j) % w == j
  {
    DivUnique(At(i, w, j), w, i, j);
  }

  /** Every flat index is that of one row and column. */
  lemma AtSplit(x: nat, m: nat, w: nat)
    requires x < m * w
    ensures w > 0 && x / w < m && x % w < w && x == At(x / w, w, x % w)
  {
    if w > 0 {
      DivMod(x, w);
      DivBelow(x, w, m);
    }
  }

  /** The first `t` terms of entry `(i, j)` of `a [m x k] * b [k x n]`. */
  function Entry(a: seq<real>, b: seq<real>, m: nat, n: nat, k: nat, i: nat, j: nat, t: nat): real
    requires |a| == m * k && |b| == k * n && i < m && j < n && t <= k
  {
    if t == 0 then 0.0
    else
      AtBound(i, m, k, t - 1);
      AtBound(t - 1, k, n, j);
      Entry(a, b, m, n, k, i, j, t - 1) + a[At(i, k, t - 1)] * b[At(t - 1, n, j)]
  }

  /** The row-major product. */
  function Product(a: seq<real>, b: seq<real>, m: nat, n: nat, k: nat): (r: seq<real>)
    requires |a| == m * k && |b| == k * n
    ensures |r| == m * n
  {
    seq(m * n, x requires 0 <= x < m * n => AtSplit(x, m, n); Entry(a, b, m, n, k, x / n, x % n, k))
  }

  lemma ProductAt(a: seq<real>, b: seq<real>, m: nat, n: nat, k: nat, i: nat, j: nat)
    requires |a| == m * k && |b| == k * n && i < m && j < n
    ensures At(i, n, j) < m * n && Product(a, b, m, n, k)[At(i, n, j)] == Entry(a, b, m, n, k, i, j, k)
  {
    AtBound(i, m, n, j);
    AtDiv(i, n, j);
  }

  /** A row of the accumulator: its first `j` columns have `t + 1` terms, the others `t`. */
  ghost predicate RowDone(a: seq<real>, b: seq<real>, m: nat, n: nat, k: nat, c: seq<real>, i: nat, t: nat, j: nat)
    requires |a| == m * k && |b| == k * n
  {
    |c| == m * n && i < m && t <= k && (t == k ==> j == 0)
    && forall q :: 0 <= q < n ==> At(i, n, q) < |c| && c[At(i, n, q)] == Entry(a, b, m, n, k, i, q, if q < j then t + 1 else t)
  }

  /** Rows before `i` are finished, rows after it untouched. */
  ghost predicate Others(a: seq<real>, b: seq<real>, m: nat, n: nat, k: nat, c: seq<real>, i: nat)
    requires |a| == m * k && |b| == k * n
  {
    |c| == m * n
    && forall r, q :: 0 <= r < m && 0 <= q < n && r != i ==>
         At(r, n, q) < |c| && c[At(r, n, q)] == Entry(a, b, m, n, k, r, q, if r < i then k else 0)
  }

  /** All rows before `i` are finished, the rest are zero. */
  ghost predicate Rows(a: seq<real>, b: seq<real>, m: nat, n: nat, k: nat, c: seq<real>, i: nat)
    requires |a| == m * k && |b| == k * n
  {
    |c| == m * n
    && forall r, q :: 0 <= r < m && 0 <= q < n ==>
         At(r, n, q) < |c| && c[At(r, n, q)] == Entry(a, b, m, n, k, r, q, if r < i then k else 0)
  }

  lemma RowsStart(a: seq<real>, b: seq<real>, m: nat, n: nat, k: nat, c: seq<real>)
    requires |a| == m * k && |b| == k * n && c == seq(m * n, _ => 0.0)
    ensures Rows(a, b, m, n, k, c, 0)
  {
    forall r, q | 0 <= r < m && 0 <= q < n
      ensures At(r, n, q) < m * n
    {
      AtBound(r, m, n, q);
    }
  }

  lemma RowsEnd(a: seq<real>, b: seq<real>, m: nat, n: nat, k: nat, c: seq<real>)
    requires |a| == m * k && |b| == k * n && Rows(a, b, m, n, k, c, m)
    ensures c == Product(a, b, m, n, k)
  {
    forall x | 0 <= x < m * n
      ensures c[x] == Product(a, b, m, n, k)[x]
    {
      AtSplit(x, m, n);
      ProductAt(a, b, m, n, k, x / n, x % n);
    }
  }

  lemma RowOpens(a: seq<real>, b: seq<real>, m: nat, n: nat, k: nat, c: seq<real>, i: nat)
    requires |a| == m * k && |b| == k * n && i < m && Rows(a, b, m, n, k, c, i)
    ensures RowDone(a, b, m, n, k, c, i, 0, 0) && Others(a, b, m, n, k, c, i)
  {
  }

  lemma RowCloses(a: seq<real>, b: seq<real>, m: nat, n: nat, k: nat, c: seq<real>, i: nat)
    requires |a| == m * k && |b| == k * n && i < m
    requires RowDone(a, b, m, n, k, c, i, k, 0) && Others(a, b, m, n, k, c, i)
    ensures Rows(a, b, m, n, k, c, i + 1)
  {
  }

  lemma RowAdvances(a: seq<real>, b: seq<real>, m: nat, n: nat, k: nat, c: seq<real>, i: nat, t: nat)
    requires |a| == m * k && |b| == k * n && t < k && RowDone(a, b, m, n, k, c, i, t, n)
    ensures RowDone(a, b, m, n, k, c, i, t + 1, 0)
  {
  }

  /** A zero factor adds nothing to any column. */
  lemma ZeroAdvances(a: seq<real>, b: seq<real>, m: nat, n: nat, k: nat, c: seq<real>, i: nat, t: nat)
    requires |a| == m * k && |b| == k * n && t < k && RowDone(a, b, m, n, k, c, i, t, 0)
    requires At(i, k, t) < |a| && a[At(i, k, t)] == 0.0
    ensures RowDone(a, b, m, n, k, c, i, t + 1, 0)
  {
    forall q | 0 <= q < n
      ensures Entry(a, b, m, n, k, i, q, t + 1) == Entry(a, b, m, n, k, i, q, t)
    {
      AtBound(t, k, n, q);
    }
  }

  /** The naive product: rows, then the shared dimension, then columns, skipping zero factors. */
  method MatMul(a: seq<real>, b: seq<real>, m: nat, n: nat, k: nat) returns (c: array<real>)
    requires |a| == m * k && |b| == k * n
    ensures fresh(c) && c[..] == Product(a, b, m, n, k)
  {
    hide Rows, RowDone, Others, Product, Entry;
    c := new real[m * n](_ => 0.0);
    assert c[..] == seq(m * n, _ => 0.0);
    RowsStart(a, b, m, n, k, c[..]);
    var i := 0;
    while i < m
      invariant i <= m && c.Length == m * n && Rows(a, b, m, n, k, c[..], i)
    {
      RowOpens(a, b, m, n, k, c[..], i);
      var t := 0;
      while t < k
        invariant t <= k && c.Length == m * n
        invariant RowDone(a, b, m, n, k, c[..], i, t, 0) && Others(a, b, m, n, k, c[..], i)
      {
        AtBound(i, m, k, t);
        var av := a[At(i, k, t)];
        if av == 0.0 {
          ZeroAdvances(a, b, m, n, k, c[..], i, t);
        } else {
          AddRow(a, b, m, n, k, c, i, t, av);
        }
        t := t + 1;
      }
      RowCloses(a, b, m, n, k, c[..], i);
      i := i + 1;
    }
    RowsEnd(a, b, m, n, k, c[..]);
  }

  /** Add `av` times row `t` of `b` to row `i` of the accumulator. */
  method AddRow(a: seq<real>, b: seq<real>, m: nat, n: nat, k: nat, c: array<real>, i: nat, t: nat, av: real)
    requires |a| == m * k && |b| == k * n && c.Length == m * n && i < m && t < k
    requires At(i, k, t) < |a| && av == a[At(i, k, t)]
    requires RowDone(a, b, m, n, k, c[..], i, t, 0) && Others(a, b, m, n, k, c[..], i)
    modifies c
    ensures RowDone(a, b, m, n, k, c[..], i, t + 1, 0) && Others(a, b, m, n, k, c[..], i)
  {
    hide RowDone, Others, Entry, At;
    var j := 0;
    while j < n
      invariant j <= n
      invariant RowDone(a, b, m, n, k, c[..], i, t, j) && Others(a, b, m, n, k, c[..], i)
    {
      AtBound(i, m, n, j);
      AtBound(t, k, n, j);
      ghost var s := c[..];
      var x, y := At(i, n, j), b[At(t, n, j)];
      c[x] := c[x] + av * y;
      assert c[..] == s[x := s[x] + av * y];
      EntryAdded(a, b, m, n, k, s, c[..], i, t, j, av * y);
      j := j + 1;
    }
    RowAdvances(a, b, m, n, k, c[..], i, t);
  }

  lemma EntryNext(a: seq<real>, b: seq<real>, m: nat, n: nat, k: nat, i: nat, j: nat, t: nat)
    requires |a| == m * k && |b| == k * n && i < m && j < n && t < k
    ensures At(i, k, t) < |a| && At(t, n, j) < |b|
    ensures Entry(a, b, m, n, k, i, j, t + 1) == Entry(a, b, m, n, k, i, j, t) + a[At(i, k, t)] * b[At(t, n, j)]
  {
    AtBound(i, m, k, t);
    AtBound(t, k, n, j);
  }

  lemma EntryAdded(a: seq<real>, b: seq<real>, m: nat, n: nat, k: nat, c: seq<real>, c': seq<real>, i: nat, t: nat,
                   j: nat, more: real)
    requires |a| == m * k && |b| == k * n && i < m && t < k && j < n
    requires At(i, k, t) < |a| && At(t, n, j) < |b|
    requires RowDone(a, b, m, n, k, c, i, t, j) && Others(a, b, m, n, k, c, i)
    requires At(i, n, j) < |c| && c' == c[At(i, n, j) := c[At(i, n, j)] + more] && more == a[At(i, k, t)] * b[At(t, n, j)]
    ensures RowDone(a, b, m, n, k, c', i, t, j + 1) && Others(a, b, m, n, k, c', i)
  {
    hide Entry, At;
    EntryNext(a, b, m, n, k, i, j, t);
    forall q | 0 <= q < n
      ensures At(i, n, q) < |c'| && c'[At(i, n, q)] == Entry(a, b, m, n, k, i, q, if q < j + 1 then t + 1 else t)
    {
      if q != j && At(i, n, q) == At(i, n, j) {
        AtUnique(i, q, i, j, n);
      }
    }
    forall r, q | 0 <= r < m && 0 <= q < n && r != i
      ensures At(r, n, q) < |c'| && c'[At(r, n, q)] == Entry(a, b, m, n, k, r, q, if r < i then k else 0)
    {
      if At(r, n, q) == At(i, n, j) {
        AtUnique(r, q, i, j, n);
      }
    }
  }
}
