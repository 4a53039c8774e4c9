/** The CPU back end's loops, each proved against its function in `CpuSpec`. */
module CpuOps {
  import opened Transformer
  import opened Requests
  import opened Arith
  import opened Matrix
  import opened CpuSpec

  // ---- norms and feed-forward ----------------------------------------------------------------------

  method RmsNormRow(net: CpuNet, x: Vec, w: Vec) returns (r: Vec)
    requires |x| == |w| > 0
    ensures r == net.RmsNorm(x, w)
  {
    var sum, i := 0.0, 0;
    while i < |x|
      invariant i <= |x| && sum == SumSquares(x, i)
    {
      sum := sum + x[i] * x[i];
      i := i + 1;
    }
    var rstd := net.math.rsqrt(sum / |x| as real + net.eps);
    r := seq(|x|, i requires 0 <= i < |x| => x[i] * rstd * w[i]);
  }

  /** A projection of one row. */
  method ProjectRow(net: CpuNet, x: Vec, w: Vec, n: nat, k: nat) returns (c: array<real>)
    requires |x| == k && |w| == k * n
    ensures fresh(c) && c[..] == net.Project(x, w, n, k)
  {
    assert 1 * k == k && 1 * n == n;
    c := MatMul(x, w, 1, n, k);
  }

  method FfnSwiglu(net: CpuNet, l: Layer, x: Vec) returns (out: array<real>)
    requires net.Ok() && net.LayerOk(l) && |x| == net.hidden
    ensures fresh(out) && out[..] == net.Ffn(l, x)
  {
    var gate := ProjectRow(net, x, l.gate, net.ffn, net.hidden);
    var up := ProjectRow(net, x, l.up, net.ffn, net.hidden);
    var gated := GateRow(net, gate[..], up[..]);
    out := ProjectRow(net, gated, l.down, net.hidden, net.ffn);
  }

  method GateRow(net: CpuNet, gate: Vec, up: Vec) returns (r: Vec)
    requires |gate| == |up|
    ensures r == net.Gated(gate, up)
  {
    r := [];
    var i := 0;
    while i < |gate|
      invariant i == |r| <= |gate|
      invariant forall k :: 0 <= k < i ==> r[k] == net.Gated(gate, up)[k]
    {
      r := r + [gate[i] * net.math.sigmoid(gate[i]) * up[i]];
      i := i + 1;
    }
  }

  /** Add `y` to `x` in place. */
  method AddInPlace(x: array<real>, y: Vec)
    requires x.Length == |y|
    modifies x
    ensures x[..] == Plus(old(x[..]), y)
  {
    var i := 0;
    while i < x.Length
      invariant i <= x.Length
      invariant forall k :: 0 <= k < x.Length ==> x[k] == if k < i then old(x[k]) + y[k] else old(x[k])
    {
      x[i] := x[i] + y[i];
      i := i + 1;
    }
  }

  method AddBias(x: array<real>, b: Option<Vec>)
    requires b.Some? ==> |b.value| == x.Length
    modifies x
    ensures x[..] == WithBias(old(x[..]), b)
  {
    if b.Some? {
      AddInPlace(x, b.value);
    }
  }

  // ---- rotary embedding ------------------------------------------------------------------------------

  lemma RopedAt(math: Math, x: Vec, half: nat, pos: nat, p: nat)
    requires 2 * half <= |x| && p < half
    ensures Roped(math, x, half, pos)[p] == x[p] * math.cos(pos, p) - x[half + p] * math.sin(pos, p)
    ensures Roped(math, x, half, pos)[half + p] == x[p] * math.sin(pos, p) + x[half + p] * math.cos(pos, p)
  {
  }

  lemma RopedTail(math: Math, x: Vec, half: nat, pos: nat)
    requires 2 * half <= |x|
    ensures forall i :: 2 * half <= i < |x| ==> Roped(math, x, half, pos)[i] == x[i]
  {
  }

  /** The first `p` pairs of the slice at `off` are rotated. */
  ghost predicate Rotated(x: seq<real>, off: nat, was: Vec, goal: Vec, half: nat, p: nat) {
    && |goal| == |was| && off + |was| <= |x|
    && forall k :: 0 <= k < |was| ==> x[off..off + |was|][k] == if k < p || half <= k < half + p then goal[k] else was[k]
  }

  lemma RotatedNext(x: seq<real>, x': seq<real>, off: nat, was: Vec, goal: Vec, half: nat, p: nat)
    requires Rotated(x, off, was, goal, half, p) && p < half && 2 * half <= |was|
    requires x' == x[off + p := goal[p]][off + (half + p) := goal[half + p]]
    ensures Rotated(x', off, was, goal, half, p + 1)
  {
    forall k | 0 <= k < |was|
      ensures x'[off..off + |was|][k] == if k < p + 1 || half <= k < half + (p + 1) then goal[k] else was[k]
    {
      assert x[off..off + |was|][k] == x[off + k];
    }
  }

  /** Nothing outside the slice has changed. */
  ghost predicate Outside(x0: seq<real>, x: seq<real>, off: nat, d: nat) {
    |x| == |x0| && forall k :: 0 <= k < |x| && !(off <= k < off + d) ==> x[k] == x0[k]
  }

  method RotatePair(math: Math, x: array<real>, off: nat, half: nat, pos: nat, p: nat,
                    ghost x0: seq<real>, ghost was: Vec, ghost goal: Vec)
    requires p < half && 2 * half <= |was| && goal == Roped(math, was, half, pos)
    requires Rotated(x[..], off, was, goal, half, p) && Outside(x0, x[..], off, |was|)
    modifies x
    ensures Rotated(x[..], off, was, goal, half, p + 1) && Outside(x0, x[..], off, |was|)
  {
    RopedAt(math, was, half, pos, p);
    PairIntact(x[..], off, was, goal, half, p);
    hide Roped, Rotated;
    ghost var s0 := x[..];
    var i, j := off + p, off + (half + p);
    var s, c := math.sin(pos, p), math.cos(pos, p);
    var a, b := x[i], x[j];
    assert a == s0[i] == was[p] && b == s0[j] == was[half + p];
    assert goal[p] == a * c - b * s && goal[half + p] == a * s + b * c;
    x[i] := a * c - b * s;
    x[j] := a * s + b * c;
    assert x[..] == s0[i := goal[p]][j := goal[half + p]];
    RotatedNext(s0, x[..], off, was, goal, half, p);
  }

  /** Rotate the slice of width `d` at `off` in place. */
  method RopeInPlace(math: Math, x: array<real>, off: nat, d: nat, pos: nat)
    requires off + d <= x.Length
    modifies x
    ensures x[..][off..off + d] == Roped(math, old(x[..])[off..off + d], d / 2, pos)
    ensures Outside(old(x[..]), x[..], off, d)
  {
    var half, p := d / 2, 0;
    ghost var x0 := x[..];
    ghost var was := x0[off..off + d];
    ghost var goal := Roped(math, was, half, pos);
    while p < half
      invariant p <= half
      invariant Rotated(x[..], off, was, goal, half, p) && Outside(x0, x[..], off, d)
    {
      RotatePair(math, x, off, half, pos, p, x0, was, goal);
      p := p + 1;
    }
    RopedTail(math, was, half, pos);
    hide Roped;
    assert forall k :: 0 <= k < d ==> x[..][off..off + d][k] == goal[k];
  }

  lemma PairIntact(x: seq<real>, off: nat, was: Vec, goal: Vec, half: nat, p: nat)
    requires Rotated(x, off, was, goal, half, p) && p < half && 2 * half <= |was|
    ensures off + |was| <= |x| && x[off + p] == was[p] && x[off + (half + p)] == was[half + p]
  {
    assert x[off..off + |was|][p] == x[off + p] && x[off..off + |was|][half + p] == x[off + (half + p)];
  }

  method RopeHeads(math: Math, x: array<real>, heads: nat, d: nat, pos: nat)
    requires x.Length == heads * d
    modifies x
    ensures x[..] == RopedHeads(math, old(x[..]), heads, d, pos)
  {
    var h := 0;
    ghost var was := x[..];
    while h < heads
      invariant h <= heads
      invariant HeadsDone(math, was, x[..], heads, d, pos, h)
    {
      HeadFits(h, heads, d);
      hide HeadsDone, Roped, Outside, RopedHeads;
      ghost var before := x[..];
      RopeInPlace(math, x, At(h, d, 0), d, pos);
      HeadDone(math, was, before, x[..], heads, d, pos, h);
      h := h + 1;
    }
    forall y | 0 <= y < heads * d
      ensures x[..][y] == RopedHeads(math, was, heads, d, pos)[y]
    {
      AtSplit(y, heads, d);
    }
  }

  ghost predicate HeadsDone(math: Math, was: Vec, now: Vec, heads: nat, d: nat, pos: nat, h: nat)
    requires |was| == heads * d
  {
    && |now| == |was|
    && forall y :: 0 <= y < heads * d ==> d > 0 && now[y] == if y / d < h then RopedHeads(math, was, heads, d, pos)[y] else was[y]
  }

  /** Head `h` of `x`, rotated, is what stands at that head of the result. */
  lemma RopedHeadsAt(math: Math, x: Vec, heads: nat, d: nat, pos: nat, h: nat, i: nat)
    requires |x| == heads * d && h < heads && i < d
    ensures At(h, d, i) < heads * d && At(h, d, d) <= |x|
    ensures RopedHeads(math, x, heads, d, pos)[At(h, d, i)] == Roped(math, HeadOf(x, h, d), d / 2, pos)[i]
  {
    AtBound(h, heads, d, i);
    HeadFits(h, heads, d);
    AtDiv(h, d, i);
  }

  lemma SameHead(was: Vec, before: Vec, heads: nat, d: nat, h: nat)
    requires |was| == heads * d == |before| && h < heads
    requires forall i :: 0 <= i < d ==> At(h, d, i) < |was| && before[At(h, d, i)] == was[At(h, d, i)]
    ensures At(h, d, 0) + d <= |was| && At(h, d, d) <= |was|
    ensures before[At(h, d, 0)..At(h, d, 0) + d] == HeadOf(was, h, d)
  {
    HeadFits(h, heads, d);
    var off := At(h, d, 0);
    forall i | 0 <= i < d
      ensures before[off..off + d][i] == HeadOf(was, h, d)[i]
    {
      assert before[At(h, d, i)] == was[At(h, d, i)];
    }
  }

  lemma HeadDone(math: Math, was: Vec, before: Vec, now: Vec, heads: nat, d: nat, pos: nat, h: nat)
    requires |was| == heads * d && h < heads && HeadsDone(math, was, before, heads, d, pos, h) && |now| == |was|
    requires At(h, d, 0) + d <= |was|
    requires now[At(h, d, 0)..At(h, d, 0) + d] == Roped(math, before[At(h, d, 0)..At(h, d, 0) + d], d / 2, pos)
    requires Outside(before, now, At(h, d, 0), d)
    ensures HeadsDone(math, was, now, heads, d, pos, h + 1)
  {
    hide RopedHeads, Roped;
    forall i | 0 <= i < d
      ensures At(h, d, i) < |was| && before[At(h, d, i)] == was[At(h, d, i)]
    {
      AtBound(h, heads, d, i);
      AtDiv(h, d, i);
    }
    SameHead(was, before, heads, d, h);
    forall y | 0 <= y < heads * d
      ensures d > 0 && now[y] == if y / d < h + 1 then RopedHeads(math, was, heads, d, pos)[y] else was[y]
    {
      AtSplit(y, heads, d);
      if y / d == h {
        RopedHeadsAt(math, was, heads, d, pos, h, y % d);
        assert now[y] == now[At(h, d, 0)..At(h, d, 0) + d][y % d];
      } else {
        OtherHead(y, d, h);
      }
    }
  }

  lemma OtherHead(y: nat, d: nat, h: nat)
    requires d > 0 && y / d != h
    ensures !(At(h, d, 0) <= y < At(h, d, 0) + d)
  {
    if At(h, d, 0) <= y < At(h, d, 0) + d {
      DivUnique(y, d, h, y - At(h, d, 0));
    }
  }

  // ---- attention -------------------------------------------------------------------------------------

  /** The first `n` rows of width `d` of a flat slice. */
  function RowsOf(flat: Vec, d: nat, n: nat): (r: seq<Vec>)
    requires n * d <= |flat|
    ensures |r| == n && Wide(r, d)
  {
    seq(n, t requires 0 <= t < n => HeadFits(t, n, d); HeadOf(flat, t, d))
  }

  method DotAt(q: Vec, k: Vec, off: nat) returns (acc: real)
    requires off + |q| <= |k|
    ensures acc == Dot(q, k[off..off + |q|], |q|)
  {
    acc := 0.0;
    var i := 0;
    while i < |q|
      invariant i <= |q| && acc == Dot(q, k[off..off + |q|], i)
    {
      acc := acc + q[i] * k[off + i];
      i := i + 1;
    }
  }

  method ScoreAll(q: Vec, k: Vec, n: nat) returns (s: Vec)
    requires n * |q| <= |k|
    ensures s == Scores(q, RowsOf(k, |q|, n))
  {
    s := [];
    var t := 0;
    while t < n
      invariant t == |s| <= n
      invariant forall u :: 0 <= u < t ==> s[u] == Scores(q, RowsOf(k, |q|, n))[u]
    {
      HeadFits(t, n, |q|);
      var acc := DotAt(q, k, At(t, |q|, 0));
      assert k[At(t, |q|, 0)..At(t, |q|, 0) + |q|] == HeadOf(k, t, |q|);
      s := s + [acc];
      t := t + 1;
    }
  }

  method Softmax(math: Math, s: Vec) returns (p: Vec)
    ensures p == Weights(math, s)
  {
    if |s| == 0 {
      return [];
    }
    var maxv, i := s[0], 1;
    while i < |s|
      invariant 1 <= i <= |s| && maxv == Maximum(s, i)
    {
      maxv := Max(maxv, s[i]);
      i := i + 1;
    }
    ghost var e := Exps(math, s);
    var sum := 0.0;
    p := [];
    i := 0;
    while i < |s|
      invariant i == |p| <= |s| && sum == Sum(e, i)
      invariant forall k :: 0 <= k < i ==> p[k] == e[k]
    {
      p := p + [math.exp(s[i] - maxv)];
      sum := sum + p[i];
      i := i + 1;
    }
    assert p == e;
    if sum > 0.0 {
      p := seq(|p|, t requires 0 <= t < |p| => p[t] / sum);
    }
  }

  /** One query head: scores, softmax, then the weighted sum of the values, skipping zero
      weights. */
  method AttentionQuery(math: Math, q: Vec, k: Vec, v: Vec, n: nat) returns (out: array<real>)
    requires n * |q| <= |k| && n * |q| <= |v|
    ensures fresh(out) && out[..] == Attend(math, q, RowsOf(k, |q|, n), RowsOf(v, |q|, n))
  {
    hide Scores, Weights, HeadOf, At;
    var s := ScoreAll(q, k, n);
    var p := Softmax(math, s);
    ghost var vs := RowsOf(v, |q|, n);
    var d := |q|;
    out := new real[d](_ => 0.0);
    var t := 0;
    while t < n
      invariant t <= n
      invariant forall i :: 0 <= i < d ==> out[i] == Mixed(p, vs, d, i, t)
    {
      var pv := p[t];
      if pv != 0.0 {
        HeadFits(t, n, d);
        AddScaled(out, v, t, pv, p, vs);
      }
      t := t + 1;
    }
  }

  method AddScaled(out: array<real>, v: Vec, t: nat, pv: real, ghost p: Vec, ghost vs: seq<Vec>)
    requires At(t, out.Length, out.Length) <= |v| && Wide(vs, out.Length) && t < |vs| && t < |p| && p[t] == pv
    requires vs[t] == HeadOf(v, t, out.Length)
    requires forall i :: 0 <= i < out.Length ==> out[i] == Mixed(p, vs, out.Length, i, t)
    modifies out
    ensures forall i :: 0 <= i < out.Length ==> out[i] == Mixed(p, vs, out.Length, i, t + 1)
  {
    var i, d := 0, out.Length;
    while i < d
      invariant i <= d
      invariant forall k :: 0 <= k < d ==> out[k] == Mixed(p, vs, d, k, if k < i then t + 1 else t)
    {
      assert vs[t][i] == v[At(t, d, i)];
      out[i] := out[i] + pv * v[At(t, d, i)];
      i := i + 1;
    }
  }
}
