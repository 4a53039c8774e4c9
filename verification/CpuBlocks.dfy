/** Laws of a whole layer: which weights reach which output, which key/value head serves which
    query head, what the residual connections carry, and what the last projection reads. */
module CpuBlocks {
  import opened Transformer
  import opened Requests
  import opened Arith
  import opened Matrix
  import opened CpuSpec
  import opened CpuLaws
  import opened CpuRope

  // ---- which weights a query, a key and a value come from ------------------------------------------------

  lemma ZeroNorm(net: CpuNet, x: Vec, w: Vec)
    requires |x| == |w| > 0 && w == Zeros(|w|)
    ensures net.RmsNorm(x, w) == Zeros(|x|)
  {
    var r := net.RmsNorm(x, w);
    forall i | 0 <= i < |x|
      ensures r[i] == 0.0
    {
      TimesZero(x[i] * net.math.rsqrt(SumSquares(x, |x|) / |x| as real + net.eps));
    }
  }

  lemma TimesZero(a: real)
    ensures a * 0.0 == 0.0
  {
  }

  lemma ZeroRoped(math: Math, heads: nat, d: nat, pos: nat)
    ensures RopedHeads(math, Zeros(heads * d), heads, d, pos) == Zeros(heads * d)
  {
    var z := Zeros(heads * d);
    var r := RopedHeads(math, z, heads, d, pos);
    forall y | 0 <= y < heads * d
      ensures r[y] == 0.0
    {
      AtSplit(y, heads, d);
      HeadFits(y / d, heads, d);
      ZeroRotated(math, HeadOf(z, y / d, d), d / 2, pos, y % d);
    }
  }

  lemma ZeroRotated(math: Math, x: Vec, half: nat, pos: nat, i: nat)
    requires 2 * half <= |x| && i < |x| && forall j :: 0 <= j < |x| ==> x[j] == 0.0
    ensures Roped(math, x, half, pos)[i] == 0.0
  {
  }

  /** Without weights of its own a query, a key or a value is its bias, rotated or, for the value,
      as it is; and nothing of the input passes an attention norm of zeros. */
  lemma BiasAlone(net: CpuNet, l: Layer, x: Vec, pos: nat)
    requires net.Ok() && net.LayerOk(l) && |x| == net.hidden
    requires l.attnNorm == Zeros(net.hidden) || (l.q == Zeros(|l.q|) && l.k == Zeros(|l.k|) && l.v == Zeros(|l.v|))
    ensures l.qBias.None? ==> net.Query(l, x, pos) == Zeros(net.qHeads * net.d)
    ensures l.kBias.None? ==> net.KeyValue(l, x, pos).k == Zeros(net.kvHeads * net.d)
    ensures l.vBias == None ==> net.KeyValue(l, x, pos).v == Zeros(net.kvHeads * net.d)
    ensures l.vBias.Some? ==> net.KeyValue(l, x, pos).v == l.vBias.value
  {
    hide RopedHeads;
    var used := net.RmsNorm(x, l.attnNorm);
    if l.attnNorm == Zeros(net.hidden) {
      ZeroNorm(net, x, l.attnNorm);
    }
    ProjectZero(net, used, l.q, net.qHeads * net.d, net.hidden);
    ProjectZero(net, used, l.k, net.kvHeads * net.d, net.hidden);
    ProjectZero(net, used, l.v, net.kvHeads * net.d, net.hidden);
    hide CpuNet.Project, CpuNet.RmsNorm;
    ZeroRoped(net.math, net.qHeads, net.d, pos);
    ZeroRoped(net.math, net.kvHeads, net.d, pos);
  }

  /** Keys come from the `k` weights alone, values from the `v` weights alone. */
  lemma KeyValueApart(net: CpuNet, l: Layer, x: Vec, pos: nat, w: Vec)
    requires net.Ok() && net.LayerOk(l) && |x| == net.hidden && |w| == |l.v| == |l.k|
    ensures net.KeyValue(l.(v := w), x, pos).k == net.KeyValue(l, x, pos).k
    ensures net.KeyValue(l.(k := w), x, pos).v == net.KeyValue(l, x, pos).v
  {
    hide RopedHeads, CpuNet.Project, CpuNet.RmsNorm, WithBias;
  }

  // ---- grouped queries --------------------------------------------------------------------------------------

  /** Both windows agree on columns `[kh * d, (kh + 1) * d)` of the keys and of the values. */
  ghost predicate SameHead(net: CpuNet, a: seq<KV>, b: seq<KV>, kh: nat)
    requires net.KeysOk(a) && net.KeysOk(b) && kh < net.kvHeads
  {
    && |a| == |b|
    && forall t :: 0 <= t < |a| ==>
         (HeadFits(kh, net.kvHeads, net.d); HeadOf(a[t].k, kh, net.d) == HeadOf(b[t].k, kh, net.d)
                                         && HeadOf(a[t].v, kh, net.d) == HeadOf(b[t].v, kh, net.d))
  }

  /** Query head `h` reads key/value head `h * kvHeads / qHeads` and no other. */
  lemma {:induction false} HeadReads(net: CpuNet, q: Vec, a: seq<KV>, b: seq<KV>, h: nat)
    requires net.Ok() && |q| == net.qHeads * net.d && net.KeysOk(a) && net.KeysOk(b) && h < net.qHeads
    requires h * net.kvHeads / net.qHeads < net.kvHeads && SameHead(net, a, b, h * net.kvHeads / net.qHeads)
    ensures At(h, net.d, net.d) <= net.hidden
    ensures HeadOf(net.Attention(q, a), h, net.d) == HeadOf(net.Attention(q, b), h, net.d)
  {
    HeadFits(h, net.qHeads, net.d);
    net.HeadGroup(h);
    GroupIs(net, h);
    var kh := h / (net.qHeads / net.kvHeads);
    assert net.KeyRows(a, kh) == net.KeyRows(b, kh) && net.ValueRows(a, kh) == net.ValueRows(b, kh);
    AttentionHead(net, q, a, h);
    AttentionHead(net, q, b, h);
    hide Attend;
  }

  lemma GroupIs(net: CpuNet, h: nat)
    requires net.Ok() && h < net.qHeads
    ensures net.qHeads / net.kvHeads > 0 && h / (net.qHeads / net.kvHeads) == h * net.kvHeads / net.qHeads
  {
    net.HeadGroup(h);
    DivMod(net.qHeads, net.kvHeads);
    var ratio := net.qHeads / net.kvHeads;
    DivScaled(h, ratio, net.kvHeads);
  }

  lemma DivScaled(h: nat, r: nat, k: nat)
    requires r > 0 && k > 0
    ensures r * k > 0 && h / r == h * k / (r * k)
  {
    DivMod(h, r);
    var a, b := h / r, h % r;
    assert h * k == a * (r * k) + b * k && b * k < r * k;
    DivUnique(h * k, r * k, a, b * k);
  }

  lemma AttentionHead(net: CpuNet, q: Vec, keys: seq<KV>, h: nat)
    requires net.Ok() && |q| == net.qHeads * net.d && net.KeysOk(keys) && h < net.qHeads
    ensures At(h, net.d, net.d) <= net.hidden && HeadOf(net.Attention(q, keys), h, net.d) == net.HeadOut(q, keys, h)
  {
    HeadFits(h, net.qHeads, net.d);
    hide CpuNet.HeadOut;
    var r, y := HeadOf(net.Attention(q, keys), h, net.d), net.HeadOut(q, keys, h);
    forall i | 0 <= i < net.d
      ensures r[i] == y[i]
    {
      AtBound(h, net.qHeads, net.d, i);
      AtDiv(h, net.d, i);
    }
  }

  /** `c` has the keys of both and the sum of their values. */
  ghost predicate ValuesSum(net: CpuNet, a: seq<KV>, b: seq<KV>, c: seq<KV>)
    requires net.KeysOk(a) && net.KeysOk(b) && net.KeysOk(c)
  {
    && |a| == |b| == |c|
    && forall t :: 0 <= t < |a| ==> c[t].k == a[t].k == b[t].k && c[t].v == Plus(a[t].v, b[t].v)
  }

  lemma RowsSum(net: CpuNet, a: seq<KV>, b: seq<KV>, c: seq<KV>, kh: nat)
    requires net.KeysOk(a) && net.KeysOk(b) && net.KeysOk(c) && ValuesSum(net, a, b, c) && kh < net.kvHeads
    ensures net.KeyRows(c, kh) == net.KeyRows(a, kh) == net.KeyRows(b, kh)
    ensures net.ValueRows(c, kh) == RowsPlus(net.ValueRows(a, kh), net.ValueRows(b, kh), net.d)
  {
    HeadFits(kh, net.kvHeads, net.d);
    var r := RowsPlus(net.ValueRows(a, kh), net.ValueRows(b, kh), net.d);
    forall t | 0 <= t < |c|
      ensures net.ValueRows(c, kh)[t] == r[t]
    {
      assert HeadOf(c[t].v, kh, net.d) == Plus(HeadOf(a[t].v, kh, net.d), HeadOf(b[t].v, kh, net.d));
    }
  }

  /** Over the same keys, attention adds up with the values. */
  lemma AttentionOfSum(net: CpuNet, q: Vec, a: seq<KV>, b: seq<KV>, c: seq<KV>, h: nat)
    requires net.Ok() && |q| == net.qHeads * net.d && net.KeysOk(a) && net.KeysOk(b) && net.KeysOk(c)
    requires ValuesSum(net, a, b, c) && h < net.qHeads
    ensures At(h, net.d, net.d) <= net.hidden
    ensures HeadOf(net.Attention(q, c), h, net.d)
         == Plus(HeadOf(net.Attention(q, a), h, net.d), HeadOf(net.Attention(q, b), h, net.d))
  {
    hide CpuNet.Attention, Attend, CpuNet.KeyRows, CpuNet.ValueRows, HeadOf, ValuesSum;
    HeadFits(h, net.qHeads, net.d);
    net.HeadGroup(h);
    var kh := h / (net.qHeads / net.kvHeads);
    AttentionHead(net, q, a, h);
    AttentionHead(net, q, b, h);
    AttentionHead(net, q, c, h);
    RowsSum(net, a, b, c, kh);
    AttendAdds(net.math, HeadOf(q, h, net.d), net.KeyRows(a, kh), net.ValueRows(a, kh), net.ValueRows(b, kh));
  }

  // ---- residual connections ------------------------------------------------------------------------------------

  lemma PlusZero(x: Vec)
    ensures Plus(x, Zeros(|x|)) == x
  {
  }

  /** Without an attention output and without a feed-forward output a layer passes its input on. */
  lemma BareBlock(net: CpuNet, l: Layer, x: Vec, pos: nat, keys: seq<KV>)
    requires net.Ok() && net.LayerOk(l) && |x| == net.hidden && net.KeysOk(keys)
    requires l.o == Zeros(|l.o|) && l.down == Zeros(|l.down|)
    ensures net.Block(l, x, pos, keys) == x
  {
    NoFeedForward(net, l, net.RmsNorm(x, l.ffnNorm));
    ProjectZero(net, net.Attention(net.Query(l, x, pos), keys), l.o, net.hidden, net.hidden);
    PlusZero(x);
    hide CpuNet.Project, CpuNet.Attention, CpuNet.Ffn, CpuNet.Query, CpuNet.RmsNorm, Plus;
  }

  lemma NoFeedForward(net: CpuNet, l: Layer, x: Vec)
    requires net.Ok() && net.LayerOk(l) && |x| == net.hidden && l.down == Zeros(|l.down|)
    ensures net.Ffn(l, x) == Zeros(net.hidden)
  {
    ProjectZero(net, net.Gated(net.Project(x, l.gate, net.ffn, net.hidden), net.Project(x, l.up, net.ffn, net.hidden)),
                l.down, net.hidden, net.ffn);
  }

  /** Without a feed-forward output the attention's contribution is additive in its output weights. */
  lemma AttentionAdds(net: CpuNet, l: Layer, u: Vec, v: Vec, x: Vec, pos: nat, keys: seq<KV>)
    requires net.Ok() && net.LayerOk(l) && |x| == net.hidden && net.KeysOk(keys) && |u| == |v| == |l.o|
    requires l.down == Zeros(|l.down|)
    ensures Plus(net.Block(l.(o := Plus(u, v)), x, pos, keys), x)
         == Plus(net.Block(l.(o := u), x, pos, keys), net.Block(l.(o := v), x, pos, keys))
  {
    var a := net.Attention(net.Query(l, x, pos), keys);
    ProjectAdds(net, a, u, v, net.hidden, net.hidden);
    AttentionOnly(net, l, Plus(u, v), x, pos, keys);
    AttentionOnly(net, l, u, x, pos, keys);
    AttentionOnly(net, l, v, x, pos, keys);
    hide CpuNet.Project, CpuNet.Attention, CpuNet.Block, CpuNet.Query;
    Rearrange(x, net.Project(a, u, net.hidden, net.hidden), net.Project(a, v, net.hidden, net.hidden));
  }

  lemma Rearrange(x: Vec, p: Vec, q: Vec)
    requires |x| == |p| == |q|
    ensures Plus(Plus(x, Plus(p, q)), x) == Plus(Plus(x, p), Plus(x, q))
  {
  }

  lemma AttentionOnly(net: CpuNet, l: Layer, o: Vec, x: Vec, pos: nat, keys: seq<KV>)
    requires net.Ok() && net.LayerOk(l) && |x| == net.hidden && net.KeysOk(keys) && |o| == |l.o|
    requires l.down == Zeros(|l.down|)
    ensures net.Block(l.(o := o), x, pos, keys)
         == Plus(x, net.Project(net.Attention(net.Query(l, x, pos), keys), o, net.hidden, net.hidden))
  {
    hide CpuNet.Project, CpuNet.Attention, CpuNet.Ffn, CpuNet.RmsNorm, RopedHeads, WithBias;
    var l' := l.(o := o);
    assert net.LayerOk(l') && net.Query(l', x, pos) == net.Query(l, x, pos);
    var mid := Plus(x, net.Project(net.Attention(net.Query(l, x, pos), keys), o, net.hidden, net.hidden));
    NoFeedForward(net, l', net.RmsNorm(mid, l'.ffnNorm));
    PlusZero(mid);
  }

  /** The feed-forward adds to what it reads: without an attention output it is linear in the `up`
      weights around the input, and a feed-forward norm of zeros shuts it off. */
  lemma FeedForwardAdds(net: CpuNet, l: Layer, u: Vec, v: Vec, x: Vec, pos: nat, keys: seq<KV>)
    requires net.Ok() && net.LayerOk(l) && |x| == net.hidden && net.KeysOk(keys) && |u| == |v| == |l.up|
    requires l.o == Zeros(|l.o|)
    ensures Plus(net.Block(l.(up := Plus(u, v)), x, pos, keys), x)
         == Plus(net.Block(l.(up := u), x, pos, keys), net.Block(l.(up := v), x, pos, keys))
  {
    var xn := net.RmsNorm(x, l.ffnNorm);
    FfnUpAdds(net, l, u, v, xn);
    FeedForwardOnly(net, l.(up := Plus(u, v)), x, pos, keys);
    FeedForwardOnly(net, l.(up := u), x, pos, keys);
    FeedForwardOnly(net, l.(up := v), x, pos, keys);
    hide CpuNet.Ffn, CpuNet.Block, CpuNet.RmsNorm;
    Rearrange(x, net.Ffn(l.(up := u), xn), net.Ffn(l.(up := v), xn));
  }

  lemma FeedForwardOnly(net: CpuNet, l: Layer, x: Vec, pos: nat, keys: seq<KV>)
    requires net.Ok() && net.LayerOk(l) && |x| == net.hidden && net.KeysOk(keys) && l.o == Zeros(|l.o|)
    ensures net.Block(l, x, pos, keys) == Plus(x, net.Ffn(l, net.RmsNorm(x, l.ffnNorm)))
  {
    ProjectZero(net, net.Attention(net.Query(l, x, pos), keys), l.o, net.hidden, net.hidden);
    PlusZero(x);
    hide CpuNet.Project, CpuNet.Attention, CpuNet.Ffn, CpuNet.Query, CpuNet.RmsNorm, Plus;
  }

  lemma ShutFeedForward(net: CpuNet, l: Layer, x: Vec, pos: nat, keys: seq<KV>)
    requires net.Ok() && net.LayerOk(l) && |x| == net.hidden && net.KeysOk(keys)
    requires l.ffnNorm == Zeros(net.hidden) && l.o == Zeros(|l.o|)
    ensures net.Block(l, x, pos, keys) == x
  {
    FeedForwardOnly(net, l, x, pos, keys);
    ZeroNorm(net, x, l.ffnNorm);
    NothingIn(net, l);
    PlusZero(x);
    hide CpuNet.Block, CpuNet.Ffn, CpuNet.RmsNorm;
  }

  lemma NothingIn(net: CpuNet, l: Layer)
    requires net.Ok() && net.LayerOk(l)
    ensures net.Ffn(l, Zeros(net.hidden)) == Zeros(net.hidden)
  {
    var z := Zeros(net.hidden);
    ProjectZero(net, z, l.gate, net.ffn, net.hidden);
    ProjectZero(net, z, l.up, net.ffn, net.hidden);
    hide CpuNet.Project;
    var g := net.Gated(Zeros(net.ffn), Zeros(net.ffn));
    assert g == Zeros(net.ffn);
    ProjectZero(net, g, l.down, net.hidden, net.ffn);
  }

  // ---- the ends of the network ---------------------------------------------------------------------------------------

  lemma {:induction false} DotAdds(a: Vec, u: Vec, v: Vec, n: nat)
    requires n <= |a| && n <= |u| == |v|
    ensures Dot(a, Plus(u, v), n) == Dot(a, u, n) + Dot(a, v, n)
  {
    if n > 0 {
      DotAdds(a, u, v, n - 1);
      Distribute(a[n - 1], u[n - 1], v[n - 1]);
    }
  }

  /** The logit of a token turns on that token's row of the output matrix, and adds up with it. */
  lemma LogitsAdd(net: CpuNet, a: CpuNet, b: CpuNet, x: Vec, v: nat)
    requires net.Ok() && a.Ok() && b.Ok() && |x| == net.hidden && v < net.vocab
    requires a == net.(lmHead := a.lmHead) && b == net.(lmHead := b.lmHead)
    requires At(v, net.hidden, net.hidden) <= |net.lmHead|
    requires HeadOf(net.lmHead, v, net.hidden) == Plus(HeadOf(a.lmHead, v, net.hidden), HeadOf(b.lmHead, v, net.hidden))
    ensures net.LogitsOf(x)[v] == a.LogitsOf(x)[v] + b.LogitsOf(x)[v]
  {
    hide CpuNet.RmsNorm, Dot, HeadOf;
    assert net.RmsNorm(x, net.finalNorm) == a.RmsNorm(x, a.finalNorm) == b.RmsNorm(x, b.finalNorm) by {
      SameNorm(net, a, x);
      SameNorm(net, b, x);
    }
    DotAdds(net.RmsNorm(x, net.finalNorm), HeadOf(a.lmHead, v, net.hidden), HeadOf(b.lmHead, v, net.hidden), net.hidden);
  }

  lemma SameNorm(net: CpuNet, a: CpuNet, x: Vec)
    requires |x| == |net.finalNorm| > 0 && a == net.(lmHead := a.lmHead)
    ensures a.RmsNorm(x, a.finalNorm) == net.RmsNorm(x, net.finalNorm)
  {
  }

  /** Nothing passes a final norm of zeros. */
  lemma ZeroLogits(net: CpuNet, x: Vec)
    requires net.Ok() && |x| == net.hidden && net.finalNorm == Zeros(net.hidden)
    ensures net.LogitsOf(x) == Zeros(net.vocab)
  {
    ZeroNorm(net, x, net.finalNorm);
    hide CpuNet.RmsNorm;
    forall v | 0 <= v < net.vocab
      ensures net.LogitsOf(x)[v] == 0.0
    {
      HeadFits(v, net.vocab, net.hidden);
      DotZero(HeadOf(net.lmHead, v, net.hidden), net.hidden, net.hidden);
    }
  }

  lemma {:induction false} DotZero(w: Vec, k: nat, n: nat)
    requires n <= |w| && n <= k
    ensures Dot(Zeros(k), w, n) == 0.0
  {
    if n > 0 {
      DotZero(w, k, n - 1);
    }
  }

  /** The embedding of a token is its row: two tables that agree there embed it alike, and entry
      `i` is `hidden` times the token after the start, and `i` on. */
  lemma EmbedReads(net: CpuNet, tok: Token, i: nat)
    requires net.Ok() && tok < net.vocab && i < net.hidden
    ensures tok * net.hidden + i < |net.embed| && net.EmbedOf(tok)[i] == net.embed[tok * net.hidden + i]
  {
    AtBound(tok, net.vocab, net.hidden, i);
  }
}
