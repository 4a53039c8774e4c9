/** Weight layouts: the transposition at load time, the operand-swapped column-major product, and
    the per-row join of the query, key and value weights. */
module Layout {
  import opened Arith
  import opened Matrix

  // ---- transposition at load time --------------------------------------------------------------------

  /** `[rows x cols]` row-major to `[cols x rows]` row-major. */
  function Transposed(w: seq<real>, rows: nat, cols: nat): (r: seq<real>)
    requires |w| == rows * cols
    ensures |r| == cols * rows
  {
    seq(cols * rows, y requires 0 <= y < cols * rows =>
      AtSplit(y, cols, rows);
      AtBound(y % rows, rows, cols, y / rows);
      w[At(y % rows, cols, y / rows)])
  }

  lemma TransposedAt(w: seq<real>, rows: nat, cols: nat, r: nat, c: nat)
    requires |w| == rows * cols && r < rows && c < cols
    ensures At(c, rows, r) < cols * rows && At(r, cols, c) < |w|
    ensures Transposed(w, rows, cols)[At(c, rows, r)] == w[At(r, cols, c)]
  {
    AtBound(c, cols, rows, r);
    AtBound(r, rows, cols, c);
    AtDiv(c, rows, r);
  }

  /** Transposing back restores the matrix. */
  lemma TransposeTwice(w: seq<real>, rows: nat, cols: nat)
    requires |w| == rows * cols
    ensures Transposed(Transposed(w, rows, cols), cols, rows) == w
  {
    hide Transposed, At;
    forall y | 0 <= y < |w|
      ensures Transposed(Transposed(w, rows, cols), cols, rows)[y] == w[y]
    {
      AtSplit(y, rows, cols);
      TransposedAt(Transposed(w, rows, cols), cols, rows, y % cols, y / cols);
      TransposedAt(w, rows, cols, y / cols, y % cols);
    }
  }

  /** Rows before `r`, and the first `c` columns of row `r`, are in place. */
  ghost predicate Scattered(w: seq<real>, out: nat, inp: nat, t: seq<real>, r: nat, c: nat)
    requires |w| == out * inp
  {
    && |t| == out * inp
    && forall p: nat, q: nat {:trigger At(q, out, p)} :: p < out && q < inp && (p < r || (p == r && q < c)) ==>
         At(q, out, p) < |t| && At(p, inp, q) < |w| && t[At(q, out, p)] == w[At(p, inp, q)]
  }

  lemma ScatterOne(w: seq<real>, out: nat, inp: nat, t: seq<real>, r: nat, c: nat)
    requires |w| == out * inp && Scattered(w, out, inp, t, r, c) && r < out && c < inp
    ensures At(c, out, r) < |t| && At(r, inp, c) < |w|
    ensures Scattered(w, out, inp, t[At(c, out, r) := w[At(r, inp, c)]], r, c + 1)
  {
    AtBound(c, inp, out, r);
    AtBound(r, out, inp, c);
    assert out * inp == inp * out;
    var t' := t[At(c, out, r) := w[At(r, inp, c)]];
    forall p: nat, q: nat {:trigger At(q, out, p)} | p < out && q < inp && (p < r || (p == r && q < c + 1))
      ensures At(q, out, p) < |t'| && At(p, inp, q) < |w| && t'[At(q, out, p)] == w[At(p, inp, q)]
    {
      AtBound(q, inp, out, p);
      AtBound(p, out, inp, q);
      if At(q, out, p) == At(c, out, r) {
        AtUnique(q, p, c, r, out);
      }
    }
  }

  lemma ScatterRow(w: seq<real>, out: nat, inp: nat, t: seq<real>, r: nat)
    requires |w| == out * inp && Scattered(w, out, inp, t, r, inp)
    ensures Scattered(w, out, inp, t, r + 1, 0)
  {
  }

  lemma ScatterAll(w: seq<real>, out: nat, inp: nat, t: seq<real>)
    requires |w| == out * inp && Scattered(w, out, inp, t, out, 0)
    ensures |t| == inp * out && t == Transposed(w, out, inp)
  {
    assert out * inp == inp * out;
    forall y | 0 <= y < |t|
      ensures t[y] == Transposed(w, out, inp)[y]
    {
      AtSplit(y, inp, out);
      TransposedAt(w, out, inp, y % out, y / out);
    }
  }

  /** `[out, in]` weights to the `[in x out]` operand the product expects, row by row. */
  method ToRowMajor(w: seq<real>, out: nat, inp: nat) returns (t: array<real>)
    requires |w| == out * inp
    ensures fresh(t) && t[..] == Transposed(w, out, inp)
  {
    t := new real[out * inp](_ => 0.0);
    var r := 0;
    while r < out
      invariant r <= out && t.Length == out * inp && Scattered(w, out, inp, t[..], r, 0)
    {
      ScatterInto(w, out, inp, t, r);
      r := r + 1;
    }
    ScatterAll(w, out, inp, t[..]);
  }

  method ScatterInto(w: seq<real>, out: nat, inp: nat, t: array<real>, r: nat)
    requires |w| == out * inp && r < out && t.Length == out * inp && Scattered(w, out, inp, t[..], r, 0)
    modifies t
    ensures Scattered(w, out, inp, t[..], r + 1, 0)
  {
    var c := 0;
    while c < inp
      invariant c <= inp && Scattered(w, out, inp, t[..], r, c)
    {
      ScatterOne(w, out, inp, t[..], r, c);
      t[At(c, out, r)] := w[At(r, inp, c)];
      c := c + 1;
    }
    ScatterRow(w, out, inp, t[..], r);
  }

  /** The dot product of row `i` of `x` and row `o` of `w`, both of width `k`. */
  function RowDot(x: seq<real>, w: seq<real>, m: nat, n: nat, k: nat, i: nat, o: nat, t: nat): real
    requires |x| == m * k && |w| == n * k && i < m && o < n && t <= k
  {
    if t == 0 then 0.0
    else
      AtBound(i, m, k, t - 1);
      AtBound(o, n, k, t - 1);
      RowDot(x, w, m, n, k, i, o, t - 1) + x[At(i, k, t - 1)] * w[At(o, k, t - 1)]
  }

  /** Multiplying by the loaded weights applies the linear layer stored in the file: output `o`
      is the dot product with the file's row `o`. */
  lemma {:induction false} LinearLayer(x: seq<real>, w: seq<real>, m: nat, n: nat, k: nat, i: nat, o: nat, t: nat)
    requires |x| == m * k && |w| == n * k && i < m && o < n && t <= k
    ensures Entry(x, Transposed(w, n, k), m, n, k, i, o, t) == RowDot(x, w, m, n, k, i, o, t)
  {
    if t > 0 {
      LinearLayer(x, w, m, n, k, i, o, t - 1);
      AtBound(i, m, k, t - 1);
      AtBound(t - 1, k, n, o);
      TransposedAt(w, n, k, o, t - 1);
    }
  }

  // ---- the column-major library call -------------------------------------------------------------------

  /** Column-major address of row `i`, column `j`. */
  function Col(i: nat, j: nat, ld: nat): nat {
    i + j * ld
  }

  /** The first `t` terms of `(i, j)` of the library's `op_N, op_N` product of `a [m x k]` and
      `b [k x n]`, both column-major. */
  function ColEntry(a: seq<real>, lda: nat, b: seq<real>, ldb: nat, m: nat, n: nat, k: nat, i: nat, j: nat, t: nat): real
    requires lda == m && ldb == k && |a| == k * lda && |b| == n * ldb && i < m && j < n && t <= k
  {
    if t == 0 then 0.0
    else
      AtBound(t - 1, k, lda, i);
      AtBound(j, n, ldb, t - 1);
      ColEntry(a, lda, b, ldb, m, n, k, i, j, t - 1) + a[Col(i, t - 1, lda)] * b[Col(t - 1, j, ldb)]
  }

  /** What the library writes: element `(i, j)` at `i + j * ldc`. */
  function ColProduct(a: seq<real>, lda: nat, b: seq<real>, ldb: nat, m: nat, n: nat, k: nat, ldc: nat): (c: seq<real>)
    requires lda == m && ldb == k && ldc == m && |a| == k * lda && |b| == n * ldb
    ensures |c| == n * ldc
  {
    seq(n * ldc, y requires 0 <= y < n * ldc =>
      AtSplit(y, n, ldc);
      ColEntry(a, lda, b, ldb, m, n, k, y % ldc, y / ldc, k))
  }

  lemma {:induction false} SwappedEntry(a: seq<real>, b: seq<real>, m: nat, n: nat, k: nat, i: nat, j: nat, t: nat)
    requires |a| == m * k && |b| == k * n && i < m && j < n && t <= k
    ensures ColEntry(b, n, a, k, n, m, k, j, i, t) == Entry(a, b, m, n, k, i, j, t)
  {
    if t > 0 {
      SwappedEntry(a, b, m, n, k, i, j, t - 1);
      AtBound(i, m, k, t - 1);
      AtBound(t - 1, k, n, j);
    }
  }

  /** Calling the column-major library with the operands swapped computes the row-major
      product, for all sizes. */
  method Gemm1r(a: seq<real>, b: seq<real>, m: nat, n: nat, k: nat) returns (c: seq<real>)
    requires |a| == m * k && |b| == k * n
    ensures c == Product(a, b, m, n, k)
  {
    c := ColProduct(b, n, a, k, n, m, k, n);
    forall y | 0 <= y < m * n
      ensures c[y] == Product(a, b, m, n, k)[y]
    {
      AtSplit(y, m, n);
      SwappedEntry(a, b, m, n, k, y / n, y % n, k);
    }
  }

  // ---- the joined projection -----------------------------------------------------------------------------

  /** Row `r` of the joined weights is row `r` of q, then of k, then of v. */
  ghost predicate Joined(f: seq<real>, q: seq<real>, k: seq<real>, v: seq<real>, h: nat, nq: nat, nk: nat, rows: nat)
    requires |q| == h * nq && |k| == h * nk && |v| == h * nk
  {
    var w := nq + 2 * nk;
    && |f| == h * w && rows <= h
    && forall r: nat, j: nat {:trigger At(r, w, j)} :: r < rows && j < w ==>
         At(r, w, j) < |f| && f[At(r, w, j)] == Source(q, k, v, h, nq, nk, r, j)
  }

  lemma JoinedAt(f: seq<real>, q: seq<real>, k: seq<real>, v: seq<real>, h: nat, nq: nat, nk: nat, rows: nat, w: nat, r: nat, j: nat)
    requires |q| == h * nq && |k| == h * nk && |v| == h * nk && Joined(f, q, k, v, h, nq, nk, rows)
    requires w == nq + 2 * nk && r < rows && j < w
    ensures At(r, w, j) < |f| && r < h && f[At(r, w, j)] == Source(q, k, v, h, nq, nk, r, j)
  {
    hide Source;
  }

  /** The weight that column `j` of the joined row comes from. */
  function Source(q: seq<real>, k: seq<real>, v: seq<real>, h: nat, nq: nat, nk: nat, r: nat, j: nat): real
    requires |q| == h * nq && |k| == h * nk && |v| == h * nk && r < h && j < nq + 2 * nk
  {
    if j < nq then AtBound(r, h, nq, j); q[At(r, nq, j)]
    else if j < nq + nk then AtBound(r, h, nk, j - nq); k[At(r, nk, j - nq)]
    else AtBound(r, h, nk, j - nq - nk); v[At(r, nk, j - nq - nk)]
  }

  lemma RowJoined(f: seq<real>, f': seq<real>, q: seq<real>, k: seq<real>, v: seq<real>, h: nat, nq: nat, nk: nat, r: nat, w: nat)
    requires |q| == h * nq && |k| == h * nk && |v| == h * nk && Joined(f, q, k, v, h, nq, nk, r) && r < h
    requires w == nq + 2 * nk && |f'| == |f| && At(r, w, w) <= |f|
    requires forall j :: 0 <= j < w ==> f'[At(r, w, j)] == Source(q, k, v, h, nq, nk, r, j)
    requires forall y :: 0 <= y < At(r, w, 0) ==> f'[y] == f[y]
    ensures Joined(f', q, k, v, h, nq, nk, r + 1)
  {
    hide Source;
    forall p: nat, j: nat {:trigger At(p, w, j)} | p < r + 1 && j < w
      ensures At(p, w, j) < |f'| && f'[At(p, w, j)] == Source(q, k, v, h, nq, nk, p, j)
    {
      if p < r {
        MulStep(p, r, w);
        JoinedAt(f, q, k, v, h, nq, nk, r, w, p, j);
      }
    }
  }

  /** The loader's join: three slice copies per row. */
  method JoinQkv(q: seq<real>, k: seq<real>, v: seq<real>, h: nat, nq: nat, nk: nat) returns (f: array<real>)
    requires |q| == h * nq && |k| == h * nk && |v| == h * nk
    ensures fresh(f) && Joined(f[..], q, k, v, h, nq, nk, h)
  {
    f := new real[h * (nq + 2 * nk)](_ => 0.0);
    var r := 0;
    while r < h
      invariant r <= h && f.Length == h * (nq + 2 * nk) && Joined(f[..], q, k, v, h, nq, nk, r)
    {
      JoinRow(q, k, v, h, nq, nk, f, r);
      r := r + 1;
    }
  }

  method JoinRow(q: seq<real>, k: seq<real>, v: seq<real>, h: nat, nq: nat, nk: nat, f: array<real>, r: nat)
    requires |q| == h * nq && |k| == h * nk && |v| == h * nk && r < h
    requires f.Length == h * (nq + 2 * nk) && Joined(f[..], q, k, v, h, nq, nk, r)
    modifies f
    ensures Joined(f[..], q, k, v, h, nq, nk, r + 1)
  {
    hide Joined, Source;
    var w := nq + 2 * nk;
    ghost var before := f[..];
    MulStep(r, h, w);
    MulStep(r, h, nq);
    MulStep(r, h, nk);
    JoinSlices(q, k, v, nq, nk, f, r * w, r * nq, r * nk);
    RowSources(f[..], q, k, v, h, nq, nk, r, w, r * w, r * nq, r * nk);
    RowJoined(before, f[..], q, k, v, h, nq, nk, r, w);
  }

  /** The three copies of one row. */
  method JoinSlices(q: seq<real>, k: seq<real>, v: seq<real>, nq: nat, nk: nat, f: array<real>, row: nat, qr: nat, kr: nat)
    requires row + nq + 2 * nk <= f.Length && qr + nq <= |q| && kr + nk <= |k| && kr + nk <= |v|
    modifies f
    ensures RowSlices(f[..], q, k, v, nq, nk, row, qr, kr)
    ensures f[..row] == old(f[..row])
  {
    CopySlice(f, row, q, qr, nq);
    CopySlice(f, row + nq, k, kr, nk);
    CopySlice(f, row + nq + nk, v, kr, nk);
  }

  ghost predicate RowSlices(f: seq<real>, q: seq<real>, k: seq<real>, v: seq<real>, nq: nat, nk: nat, row: nat, qr: nat, kr: nat) {
    && row + nq + 2 * nk <= |f| && qr + nq <= |q| && kr + nk <= |k| && kr + nk <= |v|
    && forall y :: row <= y < row + nq + 2 * nk ==>
         f[y] == if y < row + nq then q[qr + (y - row)]
                 else if y < row + nq + nk then k[kr + (y - row - nq)]
                 else v[kr + (y - row - nq - nk)]
  }

  /** `copy_from_slice`. */
  method CopySlice(dst: array<real>, to: nat, src: seq<real>, from: nat, n: nat)
    requires to + n <= dst.Length && from + n <= |src|
    modifies dst
    ensures forall y :: 0 <= y < dst.Length ==> dst[y] == if to <= y < to + n then src[from + (y - to)] else old(dst[y])
  {
    forall i | 0 <= i < n {
      dst[to + i] := src[from + i];
    }
  }

  lemma RowSources(f: seq<real>, q: seq<real>, k: seq<real>, v: seq<real>, h: nat, nq: nat, nk: nat, r: nat, w: nat, row: nat, qr: nat, kr: nat)
    requires |q| == h * nq && |k| == h * nk && |v| == h * nk && r < h && w == nq + 2 * nk
    requires RowSlices(f, q, k, v, nq, nk, row, qr, kr)
    requires row == At(r, w, 0) && qr == At(r, nq, 0) && kr == At(r, nk, 0)
    ensures forall j :: 0 <= j < w ==>
              At(r, w, j) < |f| && f[At(r, w, j)] == Source(q, k, v, h, nq, nk, r, j)
  {
    hide At;
    forall j | 0 <= j < w
      ensures At(r, w, j) < |f| && f[At(r, w, j)] == Source(q, k, v, h, nq, nk, r, j)
    {
      AtFrom(r, w, j);
      if j < nq {
        AtFrom(r, nq, j);
      } else if j < nq + nk {
        AtFrom(r, nk, j - nq);
      } else {
        AtFrom(r, nk, j - nq - nk);
      }
    }
  }

  lemma AtFrom(i: nat, w: nat, j: nat)
    ensures At(i, w, j) == At(i, w, 0) + j
  {
  }

  /** Entry `(i, j)` of the three separate products side by side. */
  function Separate(x: seq<real>, q: seq<real>, k: seq<real>, v: seq<real>, m: nat, h: nat, nq: nat, nk: nat, i: nat, j: nat, t: nat): real
    requires |x| == m * h && |q| == h * nq && |k| == h * nk && |v| == h * nk && i < m && j < nq + 2 * nk && t <= h
  {
    if j < nq then Entry(x, q, m, nq, h, i, j, t)
    else if j < nq + nk then Entry(x, k, m, nk, h, i, j - nq, t)
    else Entry(x, v, m, nk, h, i, j - nq - nk, t)
  }

  lemma {:induction false} JoinedEntry(x: seq<real>, f: seq<real>, q: seq<real>, k: seq<real>, v: seq<real>,
                                       m: nat, h: nat, nq: nat, nk: nat, w: nat, i: nat, j: nat, t: nat)
    requires |x| == m * h && |q| == h * nq && |k| == h * nk && |v| == h * nk && i < m && j < w == nq + 2 * nk && t <= h
    requires Joined(f, q, k, v, h, nq, nk, h) && |f| == h * w
    ensures Entry(x, f, m, w, h, i, j, t) == Separate(x, q, k, v, m, h, nq, nk, i, j, t)
    decreases t
  {
    hide Joined, At;
    if t > 0 {
      JoinedEntry(x, f, q, k, v, m, h, nq, nk, w, i, j, t - 1);
      JoinedAt(f, q, k, v, h, nq, nk, h, w, t - 1, j);
      AtBound(i, m, h, t - 1);
      AtBound(t - 1, h, w, j);
    }
  }

  /** One product with the joined weights, split by columns, is the three separate
      projections, for all sizes. */
  lemma JoinedIsThree(x: seq<real>, f: seq<real>, q: seq<real>, k: seq<real>, v: seq<real>, m: nat, h: nat, nq: nat, nk: nat, i: nat)
    requires |x| == m * h && |q| == h * nq && |k| == h * nk && |v| == h * nk && i < m
    requires Joined(f, q, k, v, h, nq, nk, h)
    ensures var c, w := Product(x, f, m, nq + 2 * nk, h), nq + 2 * nk;
            && At(i, w, w) <= |c| && At(i, nq, nq) <= m * nq && At(i, nk, nk) <= m * nk
            && c[At(i, w, 0)..At(i, w, nq)] == Product(x, q, m, nq, h)[At(i, nq, 0)..At(i, nq, nq)]
            && c[At(i, w, nq)..At(i, w, nq + nk)] == Product(x, k, m, nk, h)[At(i, nk, 0)..At(i, nk, nk)]
            && c[At(i, w, nq + nk)..At(i, w, w)] == Product(x, v, m, nk, h)[At(i, nk, 0)..At(i, nk, nk)]
  {
    var w := nq + 2 * nk;
    MulStep(i, m, w);
    MulStep(i, m, nq);
    MulStep(i, m, nk);
    hide Joined, Product, Entry;
    Block(x, f, q, k, v, m, h, nq, nk, i, 0, nq, q);
    Block(x, f, q, k, v, m, h, nq, nk, i, nq, nk, k);
    Block(x, f, q, k, v, m, h, nq, nk, i, nq + nk, nk, v);
  }

  /** One entry of a column block. */
  lemma BlockEntry(x: seq<real>, f: seq<real>, q: seq<real>, k: seq<real>, v: seq<real>, m: nat, h: nat, nq: nat, nk: nat,
                   i: nat, from: nat, n: nat, part: seq<real>, j: nat)
    requires |x| == m * h && |q| == h * nq && |k| == h * nk && |v| == h * nk && i < m && j < n
    requires Joined(f, q, k, v, h, nq, nk, h)
    requires (from == 0 && n == nq && part == q) || (from == nq && n == nk && part == k) || (from == nq + nk && n == nk && part == v)
    ensures var c, d, w := Product(x, f, m, nq + 2 * nk, h), Product(x, part, m, n, h), nq + 2 * nk;
            && At(i, w, from + j) < |c| && At(i, n, j) < |d| && c[At(i, w, from + j)] == d[At(i, n, j)]
  {
    hide Product, Entry, At;
    var w := nq + 2 * nk;
    ProductAt(x, f, m, w, h, i, from + j);
    ProductAt(x, part, m, n, h, i, j);
    JoinedEntry(x, f, q, k, v, m, h, nq, nk, w, i, from + j, h);
  }

  lemma SameSlices(c: seq<real>, d: seq<real>, i: nat, w: nat, from: nat, n: nat)
    requires At(i, w, from + n) <= |c| && At(i, n, n) <= |d|
    requires forall j :: 0 <= j < n ==> At(i, w, from + j) < |c| && At(i, n, j) < |d| && c[At(i, w, from + j)] == d[At(i, n, j)]
    ensures c[At(i, w, from)..At(i, w, from + n)] == d[At(i, n, 0)..At(i, n, n)]
  {
    var x, y := At(i, w, from), At(i, n, 0);
    assert At(i, w, from + n) == x + n && At(i, n, n) == y + n;
    var a, b := c[x..x + n], d[y..y + n];
    forall j | 0 <= j < n
      ensures a[j] == b[j]
    {
      assert At(i, w, from + j) == x + j && At(i, n, j) == y + j;
    }
  }

  /** One column block of one row. */
  lemma Block(x: seq<real>, f: seq<real>, q: seq<real>, k: seq<real>, v: seq<real>, m: nat, h: nat, nq: nat, nk: nat, i: nat,
              from: nat, n: nat, part: seq<real>)
    requires |x| == m * h && |q| == h * nq && |k| == h * nk && |v| == h * nk && i < m
    requires Joined(f, q, k, v, h, nq, nk, h)
    requires (from == 0 && n == nq && part == q) || (from == nq && n == nk && part == k) || (from == nq + nk && n == nk && part == v)
    ensures var c, w := Product(x, f, m, nq + 2 * nk, h), nq + 2 * nk;
            && At(i, w, from + n) <= |c| && At(i, n, n) <= m * n
            && c[At(i, w, from)..At(i, w, from + n)] == Product(x, part, m, n, h)[At(i, n, 0)..At(i, n, n)]
  {
    var w := nq + 2 * nk;
    MulStep(i, m, w);
    MulStep(i, m, n);
    assert At(i, w, from + n) <= m * w && At(i, n, n) <= m * n;
    hide Joined, Product, Entry, At;
    var c, d := Product(x, f, m, w, h), Product(x, part, m, n, h);
    forall j | 0 <= j < n
      ensures At(i, w, from + j) < |c| && At(i, n, j) < |d| && c[At(i, w, from + j)] == d[At(i, n, j)]
    {
      BlockEntry(x, f, q, k, v, m, h, nq, nk, i, from, n, part, j);
    }
    SameSlices(c, d, i, w, from, n);
  }
}
