/** The CPU model with its two flat key/value arrays, updated in place by every decode step,
    against the cached forward over a rectangular cache. */
module CpuModel {
  import opened Transformer
  import opened Requests
  import opened Arith
  import opened Matrix
  import opened CachedForward
  import opened CpuSpec
  import opened CpuOps

  // ---- the layout [layer][kv head][position][d] ------------------------------------------------------

  function Cap(net: CpuNet): nat {
    if net.ctxLen > 512 then net.ctxLen else 512
  }

  /** Every context has its slots, and there are never fewer than 512 or more than needed. */
  lemma CapIs(net: CpuNet)
    ensures Cap(net) >= 512 && Cap(net) >= net.ctxLen && Cap(net) in {512, net.ctxLen}
  {
  }

  function Size(net: CpuNet): nat {
    |net.layers| * net.kvHeads * Cap(net) * net.d
  }

  /** Entry `i` of head `h` of position `p` in layer `l`. */
  function Idx(net: CpuNet, l: nat, h: nat, p: nat, i: nat): nat {
    At(At(At(l, net.kvHeads, h), Cap(net), p), net.d, i)
  }

  predicate InCache(net: CpuNet, l: nat, h: nat, p: nat, i: nat) {
    l < |net.layers| && h < net.kvHeads && p < Cap(net) && i < net.d
  }

  lemma IdxBound(net: CpuNet, l: nat, h: nat, p: nat, i: nat)
    requires InCache(net, l, h, p, i)
    ensures Idx(net, l, h, p, i) < Size(net)
  {
    AtBound(l, |net.layers|, net.kvHeads, h);
    AtBound(At(l, net.kvHeads, h), |net.layers| * net.kvHeads, Cap(net), p);
    AtBound(At(At(l, net.kvHeads, h), Cap(net), p), |net.layers| * net.kvHeads * Cap(net), net.d, i);
  }

  /** Distinct cells never share an entry. */
  lemma IdxUnique(net: CpuNet, l0: nat, h0: nat, p0: nat, i0: nat, l1: nat, h1: nat, p1: nat, i1: nat)
    requires InCache(net, l0, h0, p0, i0) && InCache(net, l1, h1, p1, i1)
    requires Idx(net, l0, h0, p0, i0) == Idx(net, l1, h1, p1, i1)
    ensures l0 == l1 && h0 == h1 && p0 == p1 && i0 == i1
  {
    AtUnique(At(At(l0, net.kvHeads, h0), Cap(net), p0), i0, At(At(l1, net.kvHeads, h1), Cap(net), p1), i1, net.d);
    AtUnique(At(l0, net.kvHeads, h0), p0, At(l1, net.kvHeads, h1), p1, Cap(net));
    AtUnique(l0, h0, l1, h1, net.kvHeads);
  }

  /** Consecutive positions of a head are consecutive rows. */
  lemma IdxRow(net: CpuNet, l: nat, h: nat, t: nat, i: nat)
    ensures Idx(net, l, h, 0, 0) + At(t, net.d, i) == Idx(net, l, h, t, i)
  {
    var x, c, d := At(l, net.kvHeads, h), Cap(net), net.d;
    assert (x * c + t) * d == (x * c + 0) * d + t * d;
  }

  /** The vector of all heads at one position. */
  function Gather(net: CpuNet, flat: Vec, l: nat, p: nat): (r: Vec)
    requires |flat| == Size(net) && l < |net.layers| && p < Cap(net)
    ensures |r| == net.kvHeads * net.d
  {
    seq(net.kvHeads * net.d, y requires 0 <= y < net.kvHeads * net.d =>
      AtSplit(y, net.kvHeads, net.d);
      IdxBound(net, l, y / net.d, p, y % net.d);
      flat[Idx(net, l, y / net.d, p, y % net.d)])
  }

  lemma GatherAt(net: CpuNet, flat: Vec, l: nat, p: nat, h: nat, i: nat)
    requires |flat| == Size(net) && InCache(net, l, h, p, i)
    ensures At(h, net.d, i) < net.kvHeads * net.d && Idx(net, l, h, p, i) < |flat|
    ensures Gather(net, flat, l, p)[At(h, net.d, i)] == flat[Idx(net, l, h, p, i)]
  {
    AtBound(h, net.kvHeads, net.d, i);
    AtDiv(h, net.d, i);
    IdxBound(net, l, h, p, i);
  }

  function CellOf(net: CpuNet, k: Vec, v: Vec, l: nat, p: nat): KV
    requires |k| == |v| == Size(net) && l < |net.layers| && p < Cap(net)
  {
    KV(Gather(net, k, l, p), Gather(net, v, l, p))
  }

  /** The first `n` positions of one layer. */
  function LayerOf(net: CpuNet, k: Vec, v: Vec, l: nat, n: nat): (r: seq<KV>)
    requires |k| == |v| == Size(net) && l < |net.layers| && n <= Cap(net)
    ensures |r| == n
  {
    if n == 0 then [] else LayerOf(net, k, v, l, n - 1) + [CellOf(net, k, v, l, n - 1)]
  }

  function LayersTo(net: CpuNet, k: Vec, v: Vec, n: nat): (r: Cells)
    requires |k| == |v| == Size(net) && n <= |net.layers|
    ensures |r| == n && forall l :: 0 <= l < n ==> |r[l]| == Cap(net)
  {
    if n == 0 then [] else LayersTo(net, k, v, n - 1) + [LayerOf(net, k, v, n - 1, Cap(net))]
  }

  /** The two arrays as one rectangle of cells. */
  function CellsOf(net: CpuNet, k: Vec, v: Vec): (r: Cells)
    requires |k| == |v| == Size(net)
    ensures |r| == |net.layers| && forall l :: 0 <= l < |r| ==> |r[l]| == Cap(net)
  {
    LayersTo(net, k, v, |net.layers|)
  }

  lemma {:induction false} LayerAt(net: CpuNet, k: Vec, v: Vec, l: nat, n: nat, p: nat)
    requires |k| == |v| == Size(net) && l < |net.layers| && p < n <= Cap(net)
    ensures LayerOf(net, k, v, l, n)[p] == CellOf(net, k, v, l, p)
    decreases n
  {
    if p < n - 1 {
      LayerAt(net, k, v, l, n - 1, p);
    }
  }

  lemma {:induction false} LayersAt(net: CpuNet, k: Vec, v: Vec, n: nat, l: nat)
    requires |k| == |v| == Size(net) && l < n <= |net.layers|
    ensures LayersTo(net, k, v, n)[l] == LayerOf(net, k, v, l, Cap(net))
    decreases n
  {
    if l < n - 1 {
      LayersAt(net, k, v, n - 1, l);
    }
  }

  lemma CellsAt(net: CpuNet, k: Vec, v: Vec, l: nat, p: nat)
    requires |k| == |v| == Size(net) && l < |net.layers| && p < Cap(net)
    ensures CellsOf(net, k, v)[l][p] == CellOf(net, k, v, l, p)
  {
    LayersAt(net, k, v, |net.layers|, l);
    LayerAt(net, k, v, l, Cap(net), p);
  }

  // ---- writing one position ----------------------------------------------------------------------------

  /** The first `h` heads of the cell `(li, pos)` are those of `x`; all else is as it was. */
  ghost predicate Stored(net: CpuNet, was: Vec, now: Vec, li: nat, pos: nat, x: Vec, h: nat) {
    && |was| == |now| == Size(net) && |x| == net.kvHeads * net.d && li < |net.layers| && pos < Cap(net)
    && forall l: nat, g: nat, p: nat, i: nat {:trigger Idx(net, l, g, p, i)} :: InCache(net, l, g, p, i) ==>
         && Idx(net, l, g, p, i) < |now| && At(g, net.d, i) < |x|
         && now[Idx(net, l, g, p, i)] == if l == li && p == pos && g < h then x[At(g, net.d, i)] else was[Idx(net, l, g, p, i)]
  }

  lemma NothingStored(net: CpuNet, was: Vec, li: nat, pos: nat, x: Vec)
    requires |was| == Size(net) && |x| == net.kvHeads * net.d && li < |net.layers| && pos < Cap(net)
    ensures Stored(net, was, was, li, pos, x, 0)
  {
    hide Idx, Size, At, InCache;
    forall l: nat, g: nat, p: nat, i: nat {:trigger InCache(net, l, g, p, i)} | InCache(net, l, g, p, i)
      ensures Idx(net, l, g, p, i) < |was| && At(g, net.d, i) < |x|
    {
      EntryFits(net, l, g, p, i);
    }
  }

  lemma EntryFits(net: CpuNet, l: nat, g: nat, p: nat, i: nat)
    requires InCache(net, l, g, p, i)
    ensures Idx(net, l, g, p, i) < Size(net) && At(g, net.d, i) < net.kvHeads * net.d
  {
    IdxBound(net, l, g, p, i);
    AtBound(g, net.kvHeads, net.d, i);
  }

  lemma HeadStored(net: CpuNet, was: Vec, now: Vec, now': Vec, li: nat, pos: nat, x: Vec, h: nat)
    requires Stored(net, was, now, li, pos, x, h) && h < net.kvHeads && |now'| == |now|
    requires forall i :: 0 <= i < net.d ==>
               Idx(net, li, h, pos, i) < |now'| && At(h, net.d, i) < |x| && now'[Idx(net, li, h, pos, i)] == x[At(h, net.d, i)]
    requires forall y :: 0 <= y < |now| && !(Idx(net, li, h, pos, 0) <= y < Idx(net, li, h, pos, 0) + net.d) ==> now'[y] == now[y]
    ensures Stored(net, was, now', li, pos, x, h + 1)
  {
    forall l: nat, g: nat, p: nat, i: nat {:trigger Idx(net, l, g, p, i)} | InCache(net, l, g, p, i)
      ensures now'[Idx(net, l, g, p, i)] == if l == li && p == pos && g < h + 1 then x[At(g, net.d, i)] else was[Idx(net, l, g, p, i)]
    {
      if Idx(net, li, h, pos, 0) <= Idx(net, l, g, p, i) < Idx(net, li, h, pos, 0) + net.d {
        IdxUnique(net, l, g, p, i, li, h, pos, Idx(net, l, g, p, i) - Idx(net, li, h, pos, 0));
      }
    }
  }

  /** Every head written is the whole cell written. */
  lemma StoredGather(net: CpuNet, was: Vec, now: Vec, li: nat, pos: nat, x: Vec, l: nat, p: nat)
    requires Stored(net, was, now, li, pos, x, net.kvHeads) && l < |net.layers| && p < Cap(net)
    ensures Gather(net, now, l, p) == if l == li && p == pos then x else Gather(net, was, l, p)
  {
    hide Gather, Idx;
    var r := if l == li && p == pos then x else Gather(net, was, l, p);
    forall y | 0 <= y < net.kvHeads * net.d
      ensures Gather(net, now, l, p)[y] == r[y]
    {
      AtSplit(y, net.kvHeads, net.d);
      var h, i := y / net.d, y % net.d;
      GatherAt(net, now, l, p, h, i);
      GatherAt(net, was, l, p, h, i);
      assert InCache(net, l, h, p, i);
      assert now[Idx(net, l, h, p, i)] == if l == li && p == pos && h < net.kvHeads then x[At(h, net.d, i)] else was[Idx(net, l, h, p, i)];
    }
  }

  lemma StoredCells(net: CpuNet, k: Vec, v: Vec, k': Vec, v': Vec, li: nat, pos: nat, kv: KV)
    requires Stored(net, k, k', li, pos, kv.k, net.kvHeads) && Stored(net, v, v', li, pos, kv.v, net.kvHeads)
    ensures li < |CellsOf(net, k, v)| && pos < |CellsOf(net, k, v)[li]|
    ensures CellsOf(net, k', v') == Put(CellsOf(net, k, v), li, pos, kv)
  {
    var a, b := CellsOf(net, k', v'), Put(CellsOf(net, k, v), li, pos, kv);
    forall l | 0 <= l < |net.layers|
      ensures a[l] == b[l]
    {
      forall p | 0 <= p < Cap(net)
        ensures a[l][p] == b[l][p]
      {
        CellsAt(net, k, v, l, p);
        CellsAt(net, k', v', l, p);
        StoredGather(net, k, k', li, pos, kv.k, l, p);
        StoredGather(net, v, v', li, pos, kv.v, l, p);
      }
    }
  }

  /** Copy one head's slice into its slot. */
  method StoreHead(net: CpuNet, a: array<real>, li: nat, pos: nat, x: Vec, h: nat, ghost was: Vec)
    requires a.Length == Size(net) && Stored(net, was, a[..], li, pos, x, h) && h < net.kvHeads
    modifies a
    ensures Stored(net, was, a[..], li, pos, x, h + 1)
  {
    SlotFits(net, was, a[..], li, pos, x, h);
    hide Stored, Idx, At, Size;
    ghost var now := a[..];
    var base, from, d := Idx(net, li, h, pos, 0), At(h, net.d, 0), net.d;
    forall i | 0 <= i < d {
      a[base + i] := x[from + i];
    }
    forall i | 0 <= i < d
      ensures a[..][Idx(net, li, h, pos, i)] == x[At(h, d, i)]
    {
      assert a[base + i] == x[from + i];
    }
    HeadStored(net, was, now, a[..], li, pos, x, h);
  }

  /** The slot of a head is `d` consecutive entries inside the array. */
  lemma SlotFits(net: CpuNet, was: Vec, now: Vec, li: nat, pos: nat, x: Vec, h: nat)
    requires Stored(net, was, now, li, pos, x, h) && h < net.kvHeads
    ensures Idx(net, li, h, pos, 0) + net.d <= |now| && At(h, net.d, 0) + net.d <= |x|
    ensures forall i :: 0 <= i < net.d ==>
              Idx(net, li, h, pos, i) == Idx(net, li, h, pos, 0) + i && At(h, net.d, i) == At(h, net.d, 0) + i
  {
    if net.d > 0 {
      EntryFits(net, li, h, pos, net.d - 1);
    } else {
      assert net.kvHeads * net.d == 0;
    }
    hide Stored;
  }

  // ---- reading one head --------------------------------------------------------------------------------

  /** The slice of one head is the rows of that head of the cells. */
  lemma SliceRows(net: CpuNet, flat: Vec, li: nat, kh: nat, kvLen: nat, n: nat)
    requires |flat| == Size(net) && net.d > 0 && li < |net.layers| && kh < net.kvHeads && n <= kvLen <= Cap(net)
    ensures Idx(net, li, kh, 0, 0) + kvLen * net.d <= |flat|
    ensures n * net.d <= kvLen * net.d
    ensures forall t :: 0 <= t < n ==>
              At(kh, net.d, net.d) <= |Gather(net, flat, li, t)|
              && RowsOf(flat[Idx(net, li, kh, 0, 0)..Idx(net, li, kh, 0, 0) + kvLen * net.d], net.d, n)[t]
                 == HeadOf(Gather(net, flat, li, t), kh, net.d)
  {
    var base, d := Idx(net, li, kh, 0, 0), net.d;
    SliceFits(net, li, kh, kvLen);
    MulMono(n, kvLen, d);
    var slice := flat[base..base + kvLen * d];
    forall t | 0 <= t < n
      ensures At(kh, d, d) <= |Gather(net, flat, li, t)|
      ensures RowsOf(slice, d, n)[t] == HeadOf(Gather(net, flat, li, t), kh, d)
    {
      HeadFits(kh, net.kvHeads, d);
      HeadFits(t, n, d);
      forall i | 0 <= i < d
        ensures HeadOf(slice, t, d)[i] == HeadOf(Gather(net, flat, li, t), kh, d)[i]
      {
        IdxRow(net, li, kh, t, i);
        GatherAt(net, flat, li, t, kh, i);
      }
    }
  }

  lemma SliceFits(net: CpuNet, li: nat, kh: nat, kvLen: nat)
    requires net.d > 0 && li < |net.layers| && kh < net.kvHeads && kvLen <= Cap(net)
    ensures Idx(net, li, kh, 0, 0) + kvLen * net.d <= Size(net)
  {
    var x, c, d := At(li, net.kvHeads, kh), Cap(net), net.d;
    IdxBound(net, li, kh, c - 1, 0);
    AtBound(li, |net.layers|, net.kvHeads, kh);
    MulStep(x, |net.layers| * net.kvHeads, c);
    assert x * c + kvLen <= |net.layers| * net.kvHeads * c;
    MulMono(x * c + kvLen, |net.layers| * net.kvHeads * c, d);
    assert (x * c + kvLen) * d == x * c * d + kvLen * d;
  }

  // ---- the model object --------------------------------------------------------------------------------

  /** The attention window of one decode step. */
  function Window(net: CpuNet, kvLen: nat): nat {
    if kvLen < net.ctxLen then kvLen else net.ctxLen
  }

  class CpuModel {
    const net: CpuNet
    const kvK: array<real>
    const kvV: array<real>

    ghost predicate Valid() {
      net.Ok() && kvK != kvV && kvK.Length == kvV.Length == Size(net)
    }

    ghost function Cells(): Cells
      requires Valid()
      reads kvK, kvV
    {
      CellsOf(net, kvK[..], kvV[..])
    }

    constructor (net: CpuNet)
      requires net.Ok()
      ensures Valid() && this.net == net && fresh(kvK) && fresh(kvV)
    {
      this.net := net;
      kvK := new real[Size(net)](_ => 0.0);
      kvV := new real[Size(net)](_ => 0.0);
    }

    /** Write the key and value of `pos`, head by head. */
    method WriteKv(li: nat, pos: nat, k: Vec, v: Vec)
      requires Valid() && li < |net.layers| && pos < Cap(net)
      requires |k| == |v| == net.kvHeads * net.d
      modifies kvK, kvV
      ensures li < |old(Cells())| && pos < |old(Cells())[li]|
      ensures Cells() == Put(old(Cells()), li, pos, KV(k, v))
    {
      ghost var wasK, wasV := kvK[..], kvV[..];
      NothingStored(net, wasK, li, pos, k);
      NothingStored(net, wasV, li, pos, v);
      hide Stored;
      var h := 0;
      while h < net.kvHeads
        invariant h <= net.kvHeads
        invariant Stored(net, wasK, kvK[..], li, pos, k, h) && Stored(net, wasV, kvV[..], li, pos, v, h)
      {
        StoreHead(net, kvK, li, pos, k, h, wasK);
        StoreHead(net, kvV, li, pos, v, h, wasV);
        h := h + 1;
      }
      StoredCells(net, wasK, wasV, kvK[..], kvV[..], li, pos, KV(k, v));
    }

    /** The rotated query, and the key and value of `pos`. */
    method Qkv(l: Layer, x: Vec, pos: nat) returns (q: Vec, k: Vec, v: Vec)
      requires net.Ok() && net.LayerOk(l) && |x| == net.hidden
      ensures q == net.Query(l, x, pos) && KV(k, v) == net.KeyValue(l, x, pos)
    {
      var used := RmsNormRow(net, x, l.attnNorm);
      var qa := ProjectRow(net, used, l.q, net.qHeads * net.d, net.hidden);
      var ka := ProjectRow(net, used, l.k, net.kvHeads * net.d, net.hidden);
      var va := ProjectRow(net, used, l.v, net.kvHeads * net.d, net.hidden);
      AddBias(qa, l.qBias);
      AddBias(ka, l.kBias);
      AddBias(va, l.vBias);
      RopeHeads(net.math, qa, net.qHeads, net.d, pos);
      RopeHeads(net.math, ka, net.kvHeads, net.d, pos);
      q, k, v := qa[..], ka[..], va[..];
    }

    /** One query head over the cached window, read straight from the arrays. */
    method HeadAttention(li: nat, q: Vec, h: nat, kvLen: nat) returns (head: array<real>)
      requires Valid() && li < |net.layers| && |q| == net.qHeads * net.d && h < net.qHeads
      requires kvLen <= Cap(net)
      ensures fresh(head) && Window(net, kvLen) <= |Cells()[li]|
      ensures net.KeysOk(Cells()[li][..Window(net, kvLen)])
      ensures head[..] == net.HeadOut(q, Cells()[li][..Window(net, kvLen)], h)
    {
      hide RowsOf, CellsOf, Idx, Attend, CpuNet.KeyRows, CpuNet.ValueRows;
      var n, d := Window(net, kvLen), net.d;
      net.HeadGroup(h);
      HeadFits(h, net.qHeads, d);
      var kh := h / (net.qHeads / net.kvHeads);
      var base := Idx(net, li, kh, 0, 0);
      HeadWindow(net, kvK[..], kvV[..], li, kh, kvLen, n);
      head := AttentionQuery(net.math, HeadOf(q, h, d), kvK[base..base + kvLen * d], kvV[base..base + kvLen * d], n);
    }

    /** All query heads, each copied into its place. */
    method AttentionHeads(li: nat, q: Vec, kvLen: nat) returns (attn: array<real>)
      requires Valid() && li < |net.layers| && |q| == net.qHeads * net.d && kvLen <= Cap(net)
      ensures fresh(attn) && Window(net, kvLen) <= |Cells()[li]|
      ensures net.KeysOk(Cells()[li][..Window(net, kvLen)])
      ensures attn[..] == net.Attention(q, Cells()[li][..Window(net, kvLen)])
    {
      ghost var keys := Cells()[li][..Window(net, kvLen)];
      KeysFine(net, kvK[..], kvV[..], li, Window(net, kvLen));
      attn := new real[net.hidden](_ => 0.0);
      var h := 0;
      while h < net.qHeads
        invariant h <= net.qHeads && Cells() == old(Cells()) && net.KeysOk(keys)
        invariant HeadsFilled(net, attn[..], q, keys, h)
      {
        hide CellsOf, HeadsFilled, CpuNet.HeadOut, CpuNet.KeysOk;
        var head := HeadAttention(li, q, h, kvLen);
        FillHead(net, attn, head[..], q, keys, h);
        h := h + 1;
      }
      AllFilled(net, attn[..], q, keys);
    }

    // ---- one decode step ------------------------------------------------------------------------------

    /** One layer: write the cell of `pos`, attend, project, feed forward. */
    method LayerStep(li: nat, x: array<real>, pos: nat, kvLen: nat)
      requires Valid() && li < |net.layers| && x.Length == net.hidden && x != kvK && x != kvV
      requires pos < Cap(net) && kvLen <= Cap(net)
      modifies x, kvK, kvV
      ensures |old(x[..])| == net.hidden && net.LayerOk(net.layers[li])
      ensures li < |old(Cells())| && pos < |old(Cells())[li]|
      ensures Cells() == Put(old(Cells()), li, pos, net.KeyValue(net.layers[li], old(x[..]), pos))
      ensures Window(net, kvLen) <= |Cells()[li]| && net.KeysOk(Cells()[li][..Window(net, kvLen)])
      ensures x[..] == net.Block(net.layers[li], old(x[..]), pos, Cells()[li][..Window(net, kvLen)])
    {
      var l := net.layers[li];
      assert net.LayerOk(l);
      hide CellsOf, CpuNet.Query, CpuNet.KeyValue, CpuNet.Attention, CpuNet.Ffn, CpuNet.RmsNorm, CpuNet.Project, Plus;
      var q, k, v := Qkv(l, x[..], pos);
      WriteKv(li, pos, k, v);
      var attn := AttentionHeads(li, q, kvLen);
      var o := ProjectRow(net, attn[..], l.o, net.hidden, net.hidden);
      AddInPlace(x, o[..]);
      var n1 := RmsNormRow(net, x[..], l.ffnNorm);
      var f := FfnSwiglu(net, l, n1);
      AddInPlace(x, f[..]);
    }

    /** The logits of a final residual, one row of the head at a time. */
    method Logits(x: Vec) returns (out: Vec)
      requires net.Ok() && |x| == net.hidden
      ensures out == net.LogitsOf(x)
    {
      var xn := RmsNormRow(net, x, net.finalNorm);
      out := [];
      var v := 0;
      while v < net.vocab
        invariant v == |out| <= net.vocab
        invariant forall u :: 0 <= u < v ==> out[u] == net.LogitsOf(x)[u]
      {
        HeadFits(v, net.vocab, net.hidden);
        var row := HeadOf(net.lmHead, v, net.hidden);
        var acc := DotAt(xn, row, 0);
        assert row[0..net.hidden] == row;
        out := out + [acc];
        v := v + 1;
      }
    }

    method DecodeLayer(li: nat, x: array<real>, pos: nat, kvLen: nat, ghost c0: Cells, ghost emb: Vec)
      requires Valid() && li < |net.layers| && x.Length == net.hidden && x != kvK && x != kvV
      requires pos < Cap(net) && kvLen <= Cap(net) && Shaped(net.AsModel(), c0, Cap(net))
      requires (Cells(), x[..]) == Advance(net.AsModel(), c0, Cap(net), emb, pos, Window(net, kvLen), li)
      modifies x, kvK, kvV
      ensures (Cells(), x[..]) == Advance(net.AsModel(), c0, Cap(net), emb, pos, Window(net, kvLen), li + 1)
    {
      hide CellsOf, Advance, CpuNet.KeyValue, CpuNet.Block, CpuNet.KeysOk, CpuNet.AsModel, Shaped;
      ghost var c, y := Cells(), x[..];
      LayerStep(li, x, pos, kvLen);
      AdvanceNext(net, c0, emb, pos, Window(net, kvLen), li, c, y);
    }

    /** One decode step is the cached forward's step. */
    method DecodeStep(emb: Vec, pos: nat, kvLen: nat) returns (logits: Vec)
      requires Valid() && |emb| == net.hidden && pos < Cap(net) && kvLen <= Cap(net)
      modifies kvK, kvV
      ensures Shaped(net.AsModel(), old(Cells()), Cap(net))
      ensures var r := Advance(net.AsModel(), old(Cells()), Cap(net), emb, pos, Window(net, kvLen), |net.layers|);
              Cells() == r.0 && logits == net.AsModel().head(r.1)
      ensures |logits| == net.vocab
    {
      hide CellsOf, CpuNet.AsModel, Shaped, Advance, CpuNet.LogitsOf;
      ghost var m, c0, w := net.AsModel(), Cells(), Window(net, kvLen);
      CellsShaped(net, kvK[..], kvV[..]);
      AdvanceStart(m, c0, Cap(net), emb, pos, w);
      var x := new real[net.hidden](i requires 0 <= i < net.hidden => emb[i]);
      assert x[..] == emb;
      var li := 0;
      while li < |net.layers|
        invariant li <= |net.layers| && Shaped(m, c0, Cap(net))
        invariant (Cells(), x[..]) == Advance(m, c0, Cap(net), emb, pos, w, li)
      {
        DecodeLayer(li, x, pos, kvLen, c0, emb);
        li := li + 1;
      }
      logits := Logits(x[..]);
      HeadIs(net, x[..]);
    }

    // ---- prefill and greedy choice ---------------------------------------------------------------------

    /** Decode-step the prompt in order; a token outside the vocabulary is an error.  The arrays
        end up as replaying the prompt leaves them: inside the context length, as a full forward
        would, with the full forward's last row. */
    method Prefill(prompt: seq<Token>) returns (ok: bool, logits: Vec)
      requires Valid() && |prompt| <= Cap(net)
      modifies kvK, kvV
      ensures ok <==> InVocab(net, prompt)
      ensures Shaped(net.AsModel(), old(Cells()), Cap(net))
      ensures ok ==> (Cells(), logits) == Replayed(net.AsModel(), old(Cells()), Cap(net), net.ctxLen, prompt, |prompt|)
      ensures ok && |prompt| <= net.ctxLen ==> Holding(prompt, logits)
    {
      hide CellsOf, CpuNet.AsModel, Shaped, Advance, CellsHold, Replayed, Transformer.Logits;
      logits, ok := [], true;
      var pos := 0;
      ghost var m, c0 := net.AsModel(), Cells();
      CellsShaped(net, kvK[..], kvV[..]);
      ReplayStart(m, c0, Cap(net), net.ctxLen, prompt);
      while pos < |prompt|
        invariant pos <= |prompt| && InVocab(net, prompt[..pos])
        invariant (Cells(), logits) == Replayed(m, c0, Cap(net), net.ctxLen, prompt, pos)
      {
        if prompt[pos] >= net.vocab {
          OutOfVocab(net, prompt, pos);
          return false, [];
        }
        TakeNext(prompt, pos);
        logits := DecodeNext(prompt[pos], pos);
        ReplayNext(m, c0, Cap(net), net.ctxLen, prompt, pos);
        pos := pos + 1;
      }
      assert prompt[..pos] == prompt;
      if |prompt| <= net.ctxLen {
        ReplayHolds(m, c0, Cap(net), net.ctxLen, prompt, |prompt|);
      }
    }

    /** The arrays hold `toks`, and `logits` is the full forward's row after them. */
    ghost predicate Holding(toks: seq<Token>, logits: Vec)
      requires Valid()
      reads kvK, kvV
    {
      && CellsHold(net.AsModel(), Cells(), toks, |toks|)
      && (toks != [] ==> logits == Transformer.Logits(net.AsModel(), toks))
    }

    /** Embed one token and decode-step it. */
    method DecodeNext(tok: Token, pos: nat) returns (logits: Vec)
      requires Valid() && pos < Cap(net) && tok < net.vocab
      modifies kvK, kvV
      ensures Shaped(net.AsModel(), old(Cells()), Cap(net))
      ensures var m := net.AsModel();
              var r := Advance(m, old(Cells()), Cap(net), m.embed(tok), pos, Window(net, pos + 1), m.nLayer);
              Cells() == r.0 && logits == m.head(r.1)
      ensures |logits| == net.vocab
    {
      hide CellsOf, CpuNet.AsModel, Shaped, Advance;
      CellsShaped(net, kvK[..], kvV[..]);
      var emb := HeadOfEmbedding(tok);
      logits := DecodeStep(emb, pos, pos + 1);
    }

    method HeadOfEmbedding(tok: Token) returns (emb: Vec)
      requires net.Ok() && tok < net.vocab
      ensures emb == net.EmbedOf(tok) == net.AsModel().embed(tok) && |emb| == net.hidden
    {
      HeadFits(tok, net.vocab, net.hidden);
      emb := HeadOf(net.embed, tok, net.hidden);
    }

    /** One turn of the loop of `generate`: feed the newest token and pick the first of the
        largest entries of its row.  The first turn feeds the last prompt token a second time, at
        the position after the prompt (token 0 for an empty prompt). */
    method NextToken(ghost prompt: seq<Token>, ghost tokens: seq<Token>, cur: Token, pos: nat, ghost c0: Cells)
      returns (next: Token)
      requires Valid() && pos == |prompt| + |tokens| < Cap(net) && cur == Fed(prompt, tokens)[pos] < net.vocab
      requires Shaped(net.AsModel(), c0, Cap(net))
      requires Cells() == Replayed(net.AsModel(), c0, Cap(net), net.ctxLen, Fed(prompt, tokens), pos).0
      modifies kvK, kvV
      ensures Cells() == Replayed(net.AsModel(), c0, Cap(net), net.ctxLen, Fed(prompt, tokens), pos + 1).0
      ensures IsFirstMax(RowOf(net, c0, Fed(prompt, tokens)), next) && next < net.vocab
    {
      hide CellsOf, CpuNet.AsModel, Shaped, Advance, IsFirstMax, Replayed, Fed;
      var logits := DecodeNext(cur, pos);
      ReplayNext(net.AsModel(), c0, Cap(net), net.ctxLen, Fed(prompt, tokens), pos);
      next := ArgmaxFirst(logits);
      FirstMaxBound(logits, next);
    }

    /** Greedy generation, as far as the slots last.  The loop compares its position with that
        position plus the limit, so any positive limit never ends it: it goes on to the end token
        or runs out of slots. */
    method Generate(prompt: seq<Token>, nMax: nat, temperature: real, eos: Option<Token>) returns (g: Generation)
      requires Valid()
      modifies kvK, kvV
      ensures Shaped(net.AsModel(), old(Cells()), Cap(net))
      ensures g.Refused? <==> temperature != 0.0 || !InVocab(net, prompt[..Reached(net, prompt)])
                              || (prompt == [] && net.vocab == 0 && nMax > 0)
      ensures !g.Refused? && |prompt| <= Cap(net) ==> Greedy(net, old(Cells()), prompt, g.tokens, eos)
      ensures g.Generated? && !g.endedByEos ==> nMax == 0 && g.tokens == [] && |prompt| <= Cap(net)
      ensures g.Generated? && g.endedByEos ==>
                && nMax > 0 && eos.Some? && |prompt| + |g.tokens| < Cap(net)
                && IsFirstMax(RowOf(net, old(Cells()), Fed(prompt, g.tokens)), eos.value)
      ensures g.Overrun? ==> if |prompt| > Cap(net) then g.tokens == [] else nMax > 0 && |prompt| + |g.tokens| == Cap(net)
    {
      ghost var c0 := Cells();
      CellsShaped(net, kvK[..], kvV[..]);
      if temperature != 0.0 {
        return Refused;
      }
      if |prompt| > Cap(net) {
        g := PrefillOverrun(prompt);
        return;
      }
      assert prompt[..|prompt|] == prompt;
      var ok, last := Prefill(prompt);
      if !ok {
        return Refused;
      }
      g := Decode(prompt, nMax, eos, c0);
    }

    /** A prompt longer than the slots: either a token is refused, or the write after the last
        slot fails. */
    method PrefillOverrun(prompt: seq<Token>) returns (g: Generation)
      requires Valid() && |prompt| > Cap(net)
      modifies kvK, kvV
      ensures g == if InVocab(net, prompt[..Cap(net) + 1]) then Overrun([]) else Refused
    {
      var cap := Cap(net);
      var ok, last := Prefill(prompt[..cap]);
      TakeNext(prompt, cap);
      g := if ok && prompt[cap] < net.vocab then Overrun([]) else Refused;
      assert forall i :: 0 <= i < cap ==> prompt[..cap + 1][i] == prompt[..cap][i];
      assert prompt[..cap + 1][cap] == prompt[cap];
    }

    method Decode(prompt: seq<Token>, nMax: nat, eos: Option<Token>, ghost c0: Cells) returns (g: Generation)
      requires Valid() && |prompt| <= Cap(net) && InVocab(net, prompt) && Shaped(net.AsModel(), c0, Cap(net))
      requires Cells() == Replayed(net.AsModel(), c0, Cap(net), net.ctxLen, prompt, |prompt|).0
      modifies kvK, kvV
      ensures g.Refused? <==> prompt == [] && net.vocab == 0 && nMax > 0
      ensures !g.Refused? ==> Greedy(net, c0, prompt, g.tokens, eos)
      ensures g.Generated? && !g.endedByEos ==> nMax == 0 && g.tokens == []
      ensures g.Generated? && g.endedByEos ==>
                && nMax > 0 && eos.Some? && |prompt| + |g.tokens| < Cap(net)
                && IsFirstMax(RowOf(net, c0, Fed(prompt, g.tokens)), eos.value)
      ensures g.Overrun? ==> nMax > 0 && |prompt| + |g.tokens| == Cap(net)
    {
      hide CellsOf, CpuNet.AsModel, Shaped, Advance, IsFirstMax, Replayed, Fed, Greedy, RowOf;
      var tokens: seq<Token>, pos := [], |prompt|;
      var cur := if prompt == [] then 0 else prompt[|prompt| - 1];
      FedStart(net, c0, prompt, eos);
      if nMax > 0 && cur >= net.vocab {
        return Refused;
      }
      while nMax > 0
        invariant pos == |prompt| + |tokens| <= Cap(net) && |Fed(prompt, tokens)| == pos + 1
        invariant cur == Fed(prompt, tokens)[pos] && (nMax > 0 ==> cur < net.vocab)
        invariant nMax == 0 ==> tokens == []
        invariant Cells() == Replayed(net.AsModel(), c0, Cap(net), net.ctxLen, Fed(prompt, tokens), pos).0
        invariant Greedy(net, c0, prompt, tokens, eos)
        decreases Cap(net) - pos
      {
        if pos == Cap(net) {
          return Overrun(tokens);
        }
        var next := NextToken(prompt, tokens, cur, pos, c0);
        if eos == Some(next) {
          return Generated(tokens, true);
        }
        FedMore(net, c0, prompt, tokens, next, eos);
        tokens, cur, pos := tokens + [next], next, pos + 1;
      }
      g := Generated(tokens, false);
    }
  }

  /** What `generate` returns: its record, an error, or nothing because an array access failed
      after `tokens`. */
  datatype Generation = Generated(tokens: seq<Token>, endedByEos: bool) | Refused | Overrun(tokens: seq<Token>)

  /** The prompt tokens looked at: all, or up to the first without a slot. */
  function Reached(net: CpuNet, prompt: seq<Token>): (r: nat)
    ensures r <= |prompt|
  {
    if |prompt| <= Cap(net) then |prompt| else Cap(net) + 1
  }

  /** Everything fed once `tokens` have been picked. */
  function Fed(prompt: seq<Token>, tokens: seq<Token>): (r: seq<Token>)
    ensures |r| == |prompt| + 1 + |tokens|
  {
    Doubled(prompt) + tokens
  }

  /** The row of a replay. */
  function RowOf(net: CpuNet, c0: Cells, toks: seq<Token>): Vec
    requires Shaped(net.AsModel(), c0, Cap(net)) && |toks| <= Cap(net)
  {
    Replayed(net.AsModel(), c0, Cap(net), net.ctxLen, toks, |toks|).1
  }

  /** Each token is the first maximum of the row of the doubled prompt and the tokens before it,
      and none is the end token. */
  ghost predicate Greedy(net: CpuNet, c0: Cells, prompt: seq<Token>, tokens: seq<Token>, eos: Option<Token>)
    requires Shaped(net.AsModel(), c0, Cap(net))
  {
    && |prompt| + |tokens| <= Cap(net)
    && forall j :: 0 <= j < |tokens| ==>
         IsFirstMax(RowOf(net, c0, Fed(prompt, tokens[..j])), tokens[j]) && eos != Some(tokens[j])
  }

  lemma FedStart(net: CpuNet, c0: Cells, prompt: seq<Token>, eos: Option<Token>)
    requires Shaped(net.AsModel(), c0, Cap(net)) && |prompt| <= Cap(net)
    ensures Fed(prompt, [])[|prompt|] == if prompt == [] then 0 else prompt[|prompt| - 1]
    ensures Greedy(net, c0, prompt, [], eos)
    ensures Replayed(net.AsModel(), c0, Cap(net), net.ctxLen, prompt, |prompt|)
         == Replayed(net.AsModel(), c0, Cap(net), net.ctxLen, Fed(prompt, []), |prompt|)
  {
    hide CpuNet.AsModel, Replayed, Shaped;
    assert Fed(prompt, [])[..|prompt|] == prompt == prompt[..|prompt|];
    ReplayPrefix(net.AsModel(), c0, Cap(net), net.ctxLen, prompt, Fed(prompt, []), |prompt|);
  }

  lemma FedMore(net: CpuNet, c0: Cells, prompt: seq<Token>, tokens: seq<Token>, next: Token, eos: Option<Token>)
    requires Shaped(net.AsModel(), c0, Cap(net)) && |prompt| + |tokens| < Cap(net)
    requires Greedy(net, c0, prompt, tokens, eos) && IsFirstMax(RowOf(net, c0, Fed(prompt, tokens)), next) && eos != Some(next)
    ensures Fed(prompt, tokens + [next])[|prompt| + |tokens| + 1] == next && Greedy(net, c0, prompt, tokens + [next], eos)
    ensures var n := |prompt| + |tokens| + 1;
            Replayed(net.AsModel(), c0, Cap(net), net.ctxLen, Fed(prompt, tokens), n)
            == Replayed(net.AsModel(), c0, Cap(net), net.ctxLen, Fed(prompt, tokens + [next]), n)
  {
    hide CpuNet.AsModel, Replayed, Shaped, IsFirstMax, RowOf;
    var a, b, n := Fed(prompt, tokens), Fed(prompt, tokens + [next]), |prompt| + |tokens| + 1;
    assert a[..n] == b[..n];
    ReplayPrefix(net.AsModel(), c0, Cap(net), net.ctxLen, a, b, n);
    forall j | 0 <= j < |tokens| + 1
      ensures IsFirstMax(RowOf(net, c0, Fed(prompt, (tokens + [next])[..j])), (tokens + [next])[j])
      ensures eos != Some((tokens + [next])[j])
    {
      if j < |tokens| {
        assert (tokens + [next])[..j] == tokens[..j];
      } else {
        assert (tokens + [next])[..j] == tokens;
      }
    }
  }

  /** Inside the context length the rows are the full forward's, so the tokens do not depend on
      what the arrays held. */
  lemma GreedyIsFull(net: CpuNet, c0: Cells, prompt: seq<Token>, tokens: seq<Token>, eos: Option<Token>, j: nat)
    requires Shaped(net.AsModel(), c0, Cap(net)) && Greedy(net, c0, prompt, tokens, eos)
    requires j < |tokens| && |prompt| + 1 + j <= net.ctxLen
    ensures IsFirstMax(Transformer.Logits(net.AsModel(), Fed(prompt, tokens[..j])), tokens[j])
  {
    hide CpuNet.AsModel, Replayed, Shaped, IsFirstMax, Transformer.Logits;
    var all := Fed(prompt, tokens[..j]);
    ReplayHolds(net.AsModel(), c0, Cap(net), net.ctxLen, all, |all|);
    assert all[..|all|] == all;
  }

  /** Whatever the arrays held, greedy generation is one and the same inside the context length. */
  lemma {:induction false} GreedyAgree(net: CpuNet, c0: Cells, d0: Cells, prompt: seq<Token>, a: seq<Token>, b: seq<Token>,
                                       eos: Option<Token>, n: nat)
    requires Shaped(net.AsModel(), c0, Cap(net)) && Greedy(net, c0, prompt, a, eos)
    requires Shaped(net.AsModel(), d0, Cap(net)) && Greedy(net, d0, prompt, b, eos)
    requires n <= |a| && n <= |b| && |prompt| + n <= net.ctxLen
    ensures a[..n] == b[..n]
  {
    hide CpuNet.AsModel, Shaped, Transformer.Logits, Greedy;
    if n > 0 {
      GreedyAgree(net, c0, d0, prompt, a, b, eos, n - 1);
      GreedyIsFull(net, c0, prompt, a, eos, n - 1);
      GreedyIsFull(net, d0, prompt, b, eos, n - 1);
      FirstMaxUnique(Transformer.Logits(net.AsModel(), Fed(prompt, a[..n - 1])), a[n - 1], b[n - 1]);
      assert a[..n] == a[..n - 1] + [a[n - 1]] && b[..n] == b[..n - 1] + [b[n - 1]];
    }
  }

  lemma FirstMaxUnique(row: Vec, a: nat, b: nat)
    requires IsFirstMax(row, a) && IsFirstMax(row, b)
    ensures a == b
  {
    if row != [] {
      assert row[a] <= row[b] && row[b] <= row[a];
    }
  }

  lemma FirstMaxBound(row: Vec, best: nat)
    requires IsFirstMax(row, best) && row != []
    ensures best < |row|
  {
  }

  /** The prompt with its last token fed twice. */
  function Doubled(prompt: seq<Token>): seq<Token> {
    prompt + [if prompt == [] then 0 else prompt[|prompt| - 1]]
  }

  lemma ReplayStart(m: Model, cells: Cells, cap: nat, limit: nat, toks: seq<Token>)
    requires Shaped(m, cells, cap)
    ensures Replayed(m, cells, cap, limit, toks, 0) == (cells, [])
  {
  }

  lemma ReplayNext(m: Model, cells: Cells, cap: nat, limit: nat, toks: seq<Token>, n: nat)
    requires Shaped(m, cells, cap) && n < |toks| && n < cap
    ensures var w := if n + 1 < limit then n + 1 else limit;
            w <= cap && Replayed(m, cells, cap, limit, toks, n + 1)
            == var (c, x) := Advance(m, Replayed(m, cells, cap, limit, toks, n).0, cap, m.embed(toks[n]), n, w, m.nLayer); (c, m.head(x))
  {
    hide Advance;
  }

  lemma {:induction false} ReplayPrefix(m: Model, cells: Cells, cap: nat, limit: nat, a: seq<Token>, b: seq<Token>, n: nat)
    requires Shaped(m, cells, cap) && n <= |a| && n <= |b| && n <= cap && a[..n] == b[..n]
    ensures Replayed(m, cells, cap, limit, a, n) == Replayed(m, cells, cap, limit, b, n)
  {
    if n > 0 {
      assert a[n - 1] == a[..n][n - 1] == b[n - 1];
      assert a[..n - 1] == a[..n][..n - 1] == b[..n][..n - 1] == b[..n - 1];
      ReplayPrefix(m, cells, cap, limit, a, b, n - 1);
    }
  }

  predicate InVocab(net: CpuNet, toks: seq<Token>) {
    forall i :: 0 <= i < |toks| ==> toks[i] < net.vocab
  }

  lemma OutOfVocab(net: CpuNet, toks: seq<Token>, i: nat)
    requires i < |toks| && toks[i] >= net.vocab
    ensures !InVocab(net, toks)
  {
  }

  lemma TakeNext(toks: seq<Token>, pos: nat)
    requires pos < |toks|
    ensures toks[..pos + 1] == toks[..pos] + [toks[pos]]
  {
  }

  /** `best` is the first index of a maximal entry; 0 for an empty row. */
  predicate IsFirstMax(row: Vec, best: nat) {
    if row == [] then best == 0
    else
      && best < |row|
      && (forall j :: 0 <= j < |row| ==> row[j] <= row[best])
      && forall j :: 0 <= j < best ==> row[j] < row[best]
  }

  method ArgmaxFirst(logits: Vec) returns (best: nat)
    ensures IsFirstMax(logits, best)
  {
    best := 0;
    var i := 1;
    while i < |logits|
      invariant 1 <= i && (logits != [] ==> i <= |logits| && IsFirstMax(logits[..i], best))
      invariant logits == [] ==> best == 0
    {
      if logits[i] > logits[best] {
        best := i;
      }
      i := i + 1;
    }
    assert logits != [] ==> logits[..i] == logits;
  }

  lemma HeadIs(net: CpuNet, x: Vec)
    requires net.Ok() && |x| == net.hidden
    ensures net.AsModel().head(x) == net.LogitsOf(x)
  {
    hide CpuNet.LogitsOf;
  }

  lemma AdvanceStart(m: Model, cells: Cells, cap: nat, emb: Vec, pos: nat, w: nat)
    requires Shaped(m, cells, cap) && pos < cap && w <= cap
    ensures Advance(m, cells, cap, emb, pos, w, 0) == (cells, emb)
  {
  }

  lemma CellsShaped(net: CpuNet, k: Vec, v: Vec)
    requires |k| == |v| == Size(net)
    ensures Shaped(net.AsModel(), CellsOf(net, k, v), Cap(net)) && net.AsModel().nLayer == |net.layers|
  {
  }

  /** One layer of the object is one layer of the cached forward. */
  lemma AdvanceNext(net: CpuNet, c0: Cells, emb: Vec, pos: nat, w: nat, li: nat, c: Cells, y: Vec)
    requires net.Ok() && Shaped(net.AsModel(), c0, Cap(net)) && pos < Cap(net) && w <= Cap(net) && li < |net.layers|
    requires (c, y) == Advance(net.AsModel(), c0, Cap(net), emb, pos, w, li) && |y| == net.hidden
    ensures net.LayerOk(net.layers[li]) && li < |c| && pos < |c[li]|
    ensures var d := Put(c, li, pos, net.KeyValue(net.layers[li], y, pos));
            w <= |d[li]| && (net.KeysOk(d[li][..w]) ==>
              Advance(net.AsModel(), c0, Cap(net), emb, pos, w, li + 1) == (d, net.Block(net.layers[li], y, pos, d[li][..w])))
  {
    hide CpuNet.KeyValue, CpuNet.Block;
    assert net.LayerOk(net.layers[li]);
  }

  /** The cells of a layer as lists of head rows. */
  lemma SliceIsRows(net: CpuNet, k: Vec, v: Vec, li: nat, kh: nat, n: nat, keys: seq<KV>, ks: seq<Vec>, vs: seq<Vec>)
    requires |k| == |v| == Size(net) && li < |net.layers| && kh < net.kvHeads && n <= Cap(net) && net.d > 0
    requires keys == CellsOf(net, k, v)[li][..n] && |ks| == |vs| == n
    requires forall t :: 0 <= t < n ==> At(kh, net.d, net.d) <= |Gather(net, k, li, t)| && ks[t] == HeadOf(Gather(net, k, li, t), kh, net.d)
    requires forall t :: 0 <= t < n ==> At(kh, net.d, net.d) <= |Gather(net, v, li, t)| && vs[t] == HeadOf(Gather(net, v, li, t), kh, net.d)
    ensures net.KeysOk(keys) && net.KeyRows(keys, kh) == ks && net.ValueRows(keys, kh) == vs
  {
    KeysFine(net, k, v, li, n);
    HeadFits(kh, net.kvHeads, net.d);
    forall t | 0 <= t < n
      ensures keys[t] == CellOf(net, k, v, li, t)
    {
      CellsAt(net, k, v, li, t);
    }
  }

  /** The slices of one head are exactly the rows the attention of that head is defined on. */
  lemma HeadWindow(net: CpuNet, k: Vec, v: Vec, li: nat, kh: nat, kvLen: nat, n: nat)
    requires net.d > 0 && |k| == |v| == Size(net) && li < |net.layers| && kh < net.kvHeads && n <= kvLen <= Cap(net)
    ensures var base, keys := Idx(net, li, kh, 0, 0), CellsOf(net, k, v)[li][..n];
            && base + kvLen * net.d <= Size(net) && n * net.d <= kvLen * net.d && net.KeysOk(keys)
            && net.KeyRows(keys, kh) == RowsOf(k[base..base + kvLen * net.d], net.d, n)
            && net.ValueRows(keys, kh) == RowsOf(v[base..base + kvLen * net.d], net.d, n)
  {
    SliceRows(net, k, li, kh, kvLen, n);
    SliceRows(net, v, li, kh, kvLen, n);
    hide Idx, Gather, Size;
    var base := Idx(net, li, kh, 0, 0);
    SliceIsRows(net, k, v, li, kh, n, CellsOf(net, k, v)[li][..n],
                RowsOf(k[base..base + kvLen * net.d], net.d, n), RowsOf(v[base..base + kvLen * net.d], net.d, n));
  }

  lemma KeysFine(net: CpuNet, k: Vec, v: Vec, li: nat, n: nat)
    requires |k| == |v| == Size(net) && li < |net.layers| && n <= Cap(net)
    ensures net.KeysOk(CellsOf(net, k, v)[li][..n])
  {
    forall t | 0 <= t < n
      ensures CellsOf(net, k, v)[li][t] == CellOf(net, k, v, li, t)
    {
      CellsAt(net, k, v, li, t);
    }
  }

  /** The first `h` heads of the output are in place. */
  ghost predicate HeadsFilled(net: CpuNet, attn: Vec, q: Vec, keys: seq<KV>, h: nat)
    requires net.Ok() && |q| == net.qHeads * net.d && net.KeysOk(keys)
  {
    && |attn| == net.hidden
    && forall g: nat, i: nat {:trigger At(g, net.d, i)} :: g < h && g < net.qHeads && i < net.d ==>
         At(g, net.d, i) < |attn| && attn[At(g, net.d, i)] == net.HeadOut(q, keys, g)[i]
  }

  lemma AttentionAt(net: CpuNet, q: Vec, keys: seq<KV>, h: nat, i: nat)
    requires net.Ok() && |q| == net.qHeads * net.d && net.KeysOk(keys) && h < net.qHeads && i < net.d
    ensures At(h, net.d, i) < net.hidden && net.Attention(q, keys)[At(h, net.d, i)] == net.HeadOut(q, keys, h)[i]
  {
    hide CpuNet.HeadOut;
    AtBound(h, net.qHeads, net.d, i);
    AtDiv(h, net.d, i);
  }

  lemma AllFilled(net: CpuNet, attn: Vec, q: Vec, keys: seq<KV>)
    requires net.Ok() && |q| == net.qHeads * net.d && net.KeysOk(keys) && HeadsFilled(net, attn, q, keys, net.qHeads)
    ensures attn == net.Attention(q, keys)
  {
    hide CpuNet.HeadOut, CpuNet.Attention, CpuNet.KeysOk;
    forall y | 0 <= y < net.hidden
      ensures attn[y] == net.Attention(q, keys)[y]
    {
      AtSplit(y, net.qHeads, net.d);
      AttentionAt(net, q, keys, y / net.d, y % net.d);
    }
  }

  method FillHead(net: CpuNet, attn: array<real>, head: Vec, ghost q: Vec, ghost keys: seq<KV>, h: nat)
    requires net.Ok() && |q| == net.qHeads * net.d && net.KeysOk(keys) && h < net.qHeads
    requires HeadsFilled(net, attn[..], q, keys, h) && head == net.HeadOut(q, keys, h)
    modifies attn
    ensures HeadsFilled(net, attn[..], q, keys, h + 1)
  {
    hide HeadsFilled, CpuNet.HeadOut, CpuNet.KeysOk;
    ghost var was := attn[..];
    HeadFits(h, net.qHeads, net.d);
    FilledLength(net, was, q, keys, h);
    var base, d := At(h, net.d, 0), net.d;
    assert base + d == At(h, d, d);
    hide At;
    forall i | 0 <= i < d {
      attn[base + i] := head[i];
    }
    HeadFilled(net, was, attn[..], head, q, keys, h);
  }

  lemma FilledLength(net: CpuNet, attn: Vec, q: Vec, keys: seq<KV>, h: nat)
    requires net.Ok() && |q| == net.qHeads * net.d && net.KeysOk(keys) && HeadsFilled(net, attn, q, keys, h)
    ensures |attn| == net.qHeads * net.d
  {
  }

  lemma HeadFilled(net: CpuNet, was: Vec, now: Vec, head: Vec, q: Vec, keys: seq<KV>, h: nat)
    requires net.Ok() && |q| == net.qHeads * net.d && net.KeysOk(keys) && h < net.qHeads
    requires HeadsFilled(net, was, q, keys, h) && head == net.HeadOut(q, keys, h) && |now| == |was|
    requires forall y :: 0 <= y < |now| ==>
               now[y] == if At(h, net.d, 0) <= y < At(h, net.d, 0) + net.d then head[y - At(h, net.d, 0)] else was[y]
    ensures HeadsFilled(net, now, q, keys, h + 1)
  {
    hide CpuNet.HeadOut, CpuNet.KeysOk, CpuNet.LayerOk;
    forall g: nat, i: nat {:trigger At(g, net.d, i)} | g < h + 1 && g < net.qHeads && i < net.d
      ensures At(g, net.d, i) < |now| && now[At(g, net.d, i)] == net.HeadOut(q, keys, g)[i]
    {
      AtBound(g, net.qHeads, net.d, i);
      if At(h, net.d, 0) <= At(g, net.d, i) < At(h, net.d, 0) + net.d {
        AtUnique(g, i, h, At(g, net.d, i) - At(h, net.d, 0), net.d);
      }
    }
  }
}
