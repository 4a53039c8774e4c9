/** What the CPU back end computes, over the reals: norms, projections, rotary embedding,
    grouped-query attention and the gated feed-forward, as functions of whole vectors, and the
    causal model they make up. */
module CpuSpec {
  import opened Transformer
  import opened Requests
  import opened Arith
  import opened Matrix

  /** The transcendental functions, of which nothing is assumed.  `rsqrt` is one over the square
      root, `sigmoid` one over one plus the exponential of the negated argument, and `sin`/`cos`
      take the position and the index of the rotated pair. */
  datatype Math = Math(exp: real -> real, rsqrt: real -> real, sigmoid: real -> real,
                       sin: (nat, nat) -> real, cos: (nat, nat) -> real)

  datatype Layer = Layer(
    attnNorm: Vec, q: Vec, k: Vec, v: Vec, o: Vec,
    qBias: Option<Vec>, kBias: Option<Vec>, vBias: Option<Vec>,
    ffnNorm: Vec, gate: Vec, up: Vec, down: Vec)

  // ---- vectors -----------------------------------------------------------------------------------

  function Plus(x: Vec, y: Vec): (r: Vec)
    requires |x| == |y|
    ensures |r| == |x|
  {
    seq(|x|, i requires 0 <= i < |x| => x[i] + y[i])
  }

  function WithBias(x: Vec, b: Option<Vec>): (r: Vec)
    requires b.Some? ==> |b.value| == |x|
    ensures |r| == |x|
  {
    if b.Some? then Plus(x, b.value) else x
  }

  function SumSquares(x: Vec, n: nat): real
    requires n <= |x|
  {
    if n == 0 then 0.0 else SumSquares(x, n - 1) + x[n - 1] * x[n - 1]
  }

  function Sum(x: Vec, n: nat): real
    requires n <= |x|
  {
    if n == 0 then 0.0 else Sum(x, n - 1) + x[n - 1]
  }

  function Dot(a: Vec, b: Vec, n: nat): real
    requires n <= |a| && n <= |b|
  {
    if n == 0 then 0.0 else Dot(a, b, n - 1) + a[n - 1] * b[n - 1]
  }

  function Max(a: real, b: real): real {
    if a >= b then a else b
  }

  function Maximum(s: Vec, n: nat): real
    requires 0 < n <= |s|
  {
    if n == 1 then s[0] else Max(Maximum(s, n - 1), s[n - 1])
  }

  /** Head `h` of a vector of heads of width `d`. */
  function HeadOf(x: Vec, h: nat, d: nat): (r: Vec)
    requires At(h, d, d) <= |x|
    ensures |r| == d && forall i :: 0 <= i < d ==> r[i] == x[At(h, d, i)]
  {
    x[At(h, d, 0)..At(h, d, d)]
  }

  lemma HeadFits(h: nat, heads: nat, d: nat)
    requires h < heads
    ensures At(h, d, d) <= heads * d
  {
    MulStep(h, heads, d);
  }

  // ---- rotary embedding ----------------------------------------------------------------------------

  /** Half-split rotation of the first `2 * half` entries. */
  function Roped(math: Math, x: Vec, half: nat, pos: nat): (r: Vec)
    requires 2 * half <= |x|
    ensures |r| == |x|
  {
    seq(|x|, i requires 0 <= i < |x| =>
      if i < half then x[i] * math.cos(pos, i) - x[half + i] * math.sin(pos, i)
      else if i < 2 * half then x[i - half] * math.sin(pos, i - half) + x[i] * math.cos(pos, i - half)
      else x[i])
  }

  function RopedHeads(math: Math, x: Vec, heads: nat, d: nat, pos: nat): (r: Vec)
    requires |x| == heads * d
    ensures |r| == |x|
  {
    seq(heads * d, y requires 0 <= y < heads * d =>
      AtSplit(y, heads, d);
      HeadFits(y / d, heads, d);
      Roped(math, HeadOf(x, y / d, d), d / 2, pos)[y % d])
  }

  // ---- attention -------------------------------------------------------------------------------------

  predicate Wide(rows: seq<Vec>, d: nat) {
    forall t :: 0 <= t < |rows| ==> |rows[t]| == d
  }

  function Scores(q: Vec, ks: seq<Vec>): (r: Vec)
    requires Wide(ks, |q|)
    ensures |r| == |ks|
  {
    seq(|ks|, t requires 0 <= t < |ks| => Dot(q, ks[t], |q|))
  }

  function Exps(math: Math, s: Vec): (r: Vec)
    requires |s| > 0
    ensures |r| == |s|
  {
    seq(|s|, t requires 0 <= t < |s| => math.exp(s[t] - Maximum(s, |s|)))
  }

  /** Softmax, without the division if the sum is not positive. */
  function Weights(math: Math, s: Vec): (r: Vec)
    ensures |r| == |s|
  {
    if |s| == 0 then []
    else
      var e := Exps(math, s);
      var sum := Sum(e, |e|);
      if sum > 0.0 then seq(|e|, t requires 0 <= t < |e| => e[t] / sum) else e
  }

  function Mixed(p: Vec, vs: seq<Vec>, d: nat, i: nat, n: nat): real
    requires Wide(vs, d) && i < d && n <= |vs| && n <= |p|
  {
    if n == 0 then 0.0 else Mixed(p, vs, d, i, n - 1) + p[n - 1] * vs[n - 1][i]
  }

  /** One query head over its keys and values. */
  function Attend(math: Math, q: Vec, ks: seq<Vec>, vs: seq<Vec>): (r: Vec)
    requires Wide(ks, |q|) && Wide(vs, |q|) && |ks| == |vs|
    ensures |r| == |q|
  {
    var p := Weights(math, Scores(q, ks));
    seq(|q|, i requires 0 <= i < |q| => Mixed(p, vs, |q|, i, |vs|))
  }

  // ---- the network -----------------------------------------------------------------------------------

  datatype CpuNet = CpuNet(
    hidden: nat, d: nat, qHeads: nat, kvHeads: nat, ffn: nat, ctxLen: nat, vocab: nat, eps: real,
    layers: seq<Layer>, embed: Vec, lmHead: Vec, finalNorm: Vec, math: Math)
  {
    predicate BiasOk(b: Option<Vec>, n: nat) {
      b.Some? ==> |b.value| == n
    }

    predicate LayerOk(l: Layer) {
      && |l.attnNorm| == hidden && |l.ffnNorm| == hidden
      && |l.q| == hidden * (qHeads * d) && |l.k| == hidden * (kvHeads * d) && |l.v| == hidden * (kvHeads * d)
      && |l.o| == hidden * hidden
      && BiasOk(l.qBias, qHeads * d) && BiasOk(l.kBias, kvHeads * d) && BiasOk(l.vBias, kvHeads * d)
      && |l.gate| == hidden * ffn && |l.up| == hidden * ffn && |l.down| == ffn * hidden
    }

    /** The shapes the loader establishes; every key/value head serves the same number of query
        heads, and the heads make up the hidden vector. */
    predicate Ok() {
      && hidden > 0 && d > 0 && kvHeads > 0 && qHeads % kvHeads == 0 && qHeads * d == hidden
      && |embed| == vocab * hidden && |lmHead| == vocab * hidden && |finalNorm| == hidden
      && forall l :: 0 <= l < |layers| ==> LayerOk(layers[l])
    }

    function RmsNorm(x: Vec, w: Vec): (r: Vec)
      requires |x| == |w| > 0
      ensures |r| == |x|
    {
      var rstd := math.rsqrt(SumSquares(x, |x|) / |x| as real + eps);
      seq(|x|, i requires 0 <= i < |x| => x[i] * rstd * w[i])
    }

    function Project(x: Vec, w: Vec, n: nat, k: nat): (r: Vec)
      requires |x| == k && |w| == k * n
      ensures |r| == n
    {
      assert 1 * k == k && 1 * n == n;
      Product(x, w, 1, n, k)
    }

    function Query(l: Layer, x: Vec, pos: nat): (r: Vec)
      requires Ok() && LayerOk(l) && |x| == hidden
      ensures |r| == qHeads * d
    {
      RopedHeads(math, WithBias(Project(RmsNorm(x, l.attnNorm), l.q, qHeads * d, hidden), l.qBias), qHeads, d, pos)
    }

    function KeyValue(l: Layer, x: Vec, pos: nat): (r: KV)
      requires Ok() && LayerOk(l) && |x| == hidden
      ensures |r.k| == kvHeads * d && |r.v| == kvHeads * d
    {
      var used := RmsNorm(x, l.attnNorm);
      KV(RopedHeads(math, WithBias(Project(used, l.k, kvHeads * d, hidden), l.kBias), kvHeads, d, pos),
         WithBias(Project(used, l.v, kvHeads * d, hidden), l.vBias))
    }

    predicate KeysOk(keys: seq<KV>) {
      forall t :: 0 <= t < |keys| ==> |keys[t].k| == kvHeads * d && |keys[t].v| == kvHeads * d
    }

    /** Head `kh` of the keys, and of the values. */
    function KeyRows(keys: seq<KV>, kh: nat): (r: seq<Vec>)
      requires KeysOk(keys) && kh < kvHeads
      ensures |r| == |keys| && Wide(r, d)
    {
      HeadFits(kh, kvHeads, d);
      seq(|keys|, t requires 0 <= t < |keys| => HeadOf(keys[t].k, kh, d))
    }

    function ValueRows(keys: seq<KV>, kh: nat): (r: seq<Vec>)
      requires KeysOk(keys) && kh < kvHeads
      ensures |r| == |keys| && Wide(r, d)
    {
      HeadFits(kh, kvHeads, d);
      seq(|keys|, t requires 0 <= t < |keys| => HeadOf(keys[t].v, kh, d))
    }

    lemma HeadGroup(h: nat)
      requires Ok() && h < qHeads
      ensures qHeads / kvHeads > 0 && h / (qHeads / kvHeads) < kvHeads
    {
      DivMod(qHeads, kvHeads);
      var ratio := qHeads / kvHeads;
      assert ratio * kvHeads == qHeads;
      assert kvHeads * ratio == qHeads;
      DivBelow(h, ratio, kvHeads);
    }

    /** Query head `h` attends to key/value head `h / (qHeads / kvHeads)`. */
    function HeadOut(q: Vec, keys: seq<KV>, h: nat): (r: Vec)
      requires Ok() && |q| == qHeads * d && KeysOk(keys) && h < qHeads
      ensures |r| == d
    {
      HeadFits(h, qHeads, d);
      HeadGroup(h);
      var kh := h / (qHeads / kvHeads);
      Attend(math, HeadOf(q, h, d), KeyRows(keys, kh), ValueRows(keys, kh))
    }

    function Attention(q: Vec, keys: seq<KV>): (r: Vec)
      requires Ok() && |q| == qHeads * d && KeysOk(keys)
      ensures |r| == hidden
    {
      seq(hidden, y requires 0 <= y < hidden =>
        AtSplit(y, qHeads, d);
        HeadOut(q, keys, y / d)[y % d])
    }

    function Gated(gate: Vec, up: Vec): (r: Vec)
      requires |gate| == |up|
      ensures |r| == |gate|
    {
      seq(|gate|, i requires 0 <= i < |gate| => gate[i] * math.sigmoid(gate[i]) * up[i])
    }

    function Ffn(l: Layer, x: Vec): (r: Vec)
      requires Ok() && LayerOk(l) && |x| == hidden
      ensures |r| == hidden
    {
      Project(Gated(Project(x, l.gate, ffn, hidden), Project(x, l.up, ffn, hidden)), l.down, hidden, ffn)
    }

    function Block(l: Layer, x: Vec, pos: nat, keys: seq<KV>): (r: Vec)
      requires Ok() && LayerOk(l) && |x| == hidden && KeysOk(keys)
      ensures |r| == hidden
    {
      var mid := Plus(x, Project(Attention(Query(l, x, pos), keys), l.o, hidden, hidden));
      Plus(mid, Ffn(l, RmsNorm(mid, l.ffnNorm)))
    }

    function LogitsOf(x: Vec): (r: Vec)
      requires Ok() && |x| == hidden
      ensures |r| == vocab
    {
      var xn := RmsNorm(x, finalNorm);
      seq(vocab, v requires 0 <= v < vocab =>
        HeadFits(v, vocab, hidden);
        Dot(xn, HeadOf(lmHead, v, hidden), hidden))
    }

    function EmbedOf(tok: Token): (r: Vec)
      requires Ok() && tok < vocab
      ensures |r| == hidden
    {
      HeadFits(tok, vocab, hidden);
      HeadOf(embed, tok, hidden)
    }

    /** The network as a causal model.  Outside the shapes that occur the functions return a
        placeholder. */
    function AsModel(): Model {
      Model(|layers|,
            (t: Token) => if Ok() && t < vocab then EmbedOf(t) else [],
            (l: nat, x: Vec, p: nat) => if Ok() && l < |layers| && |x| == hidden then KeyValue(layers[l], x, p) else KV([], []),
            (l: nat, x: Vec, p: nat, keys: seq<KV>) =>
              if Ok() && l < |layers| && |x| == hidden && KeysOk(keys) then Block(layers[l], x, p, keys) else [],
            (x: Vec) => if Ok() && |x| == hidden then LogitsOf(x) else [])
    }
  }
}
