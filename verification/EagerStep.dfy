/** The eager decode steps: the launch calls in order, each through its wrapper, which computes
    the geometry and lays out the arguments. */
module EagerStep {
  import opened Requests
  import opened Launches

  const FLASH_TPB: nat := 512
  const FLASH_SMEM_MAX: nat := 48 * 1024

  // ---- wrappers ------------------------------------------------------------------------------------

  function LaunchRow(kernel: Kernel, block: nat, args: seq<Word>): Launch {
    Launch(kernel, 1, block, 0, args)
  }

  function LaunchRows(kernel: Kernel, grid: nat, block: nat, args: seq<Word>): Launch {
    Launch(kernel, grid, block, 0, args)
  }

  function LaunchGather(src: Word, dst: Word, row: nat, n: nat): Launch {
    LaunchRows(GatherRow, DivCeil(n, 256), 256, [src, dst, row, n])
  }

  function LaunchRmsNorm(x: Word, out: Word, w: Word, n: nat, eps: Word): Launch {
    LaunchRow(RmsNormRow, 256, [x, out, w, n, eps])
  }

  function LaunchRmsHeads(x: Word, out: Word, w: Word, rows: nat, n: nat, eps: Word): Launch {
    LaunchRows(RmsNormHeads, rows, 256, [x, out, w, rows, n, eps])
  }

  function LaunchCast(x: Word, out: Word, n: nat): Launch {
    LaunchRows(CastF32F16, DivCeil(n, 256), 256, [x, out, n])
  }

  function LaunchRopeHeads(x: Word, heads: nat, half: nat, pos: nat, eta: Word, scale: Word): Launch {
    LaunchRows(RopeHeads, heads, 256, [x, heads, half, pos, eta, scale])
  }

  function LaunchKvWrite(k: Word, v: Word, kv: Word, phys: nat, off: nat, blockLen: nat, kvHeads: nat, d: nat,
                         totalPages: nat): Launch
  {
    var perTok := kvHeads * d;
    LaunchRows(KvWriteRow, DivCeil(perTok, 256), 256, [k, v, kv, phys, off, blockLen, kvHeads, d, totalPages])
  }

  function LaunchDecodeGqa(q: Word, page: Word, kv: Word, lens: Word, scores: Word, out: Word, b: nat, qh: nat, d: nat,
                           blockLen: nat, ratio: nat, kvHeads: nat, maxKv: nat, totalPages: nat): Launch
  {
    LaunchRows(DecodeGqa, b * qh, 256,
               [q, page, kv, lens, scores, out, b, qh, d, blockLen, ratio, kvHeads, maxKv, totalPages])
  }

  /** Refused when the dynamic shared memory does not fit. */
  function LaunchFlash(q: Word, page: Word, kv: Word, lens: Word, out: Word, b: nat, qh: nat, d: nat, blockLen: nat,
                       ratio: nat, kvHeads: nat, maxKv: nat, totalPages: nat, identity: nat): Option<Launch>
  {
    var smem := (d + maxKv) * 4;
    if smem > FLASH_SMEM_MAX then None
    else Some(Launch(DecodeGqaFlash, b * qh, FLASH_TPB, smem,
                     [q, page, kv, lens, out, b, qh, d, blockLen, ratio, kvHeads, maxKv, totalPages, identity]))
  }

  function LaunchFlashFused(q: Word, page: Word, kv: Word, lens: Word, out: Word, b: nat, qh: nat, d: nat, blockLen: nat,
                            ratio: nat, kvHeads: nat, maxKv: nat, totalPages: nat, identity: nat, k16: Word, v16: Word):
    Option<Launch>
  {
    var smem := (d + maxKv) * 4;
    if smem > FLASH_SMEM_MAX then None
    else Some(Launch(DecodeGqaFlashFused, b * qh, FLASH_TPB, smem,
                     [q, page, kv, lens, out, b, qh, d, blockLen, ratio, kvHeads, maxKv, totalPages, identity, k16, v16]))
  }

  function LaunchFusedAddRms(x: Word, c: Word, out: Word, w: Word, n: nat, eps: Word): Launch {
    LaunchRow(FusedAddRms, 256, [x, c, out, w, n, eps])
  }

  function LaunchFusedCastSwiglu(gate: Word, up: Word, out: Word, n: nat): Launch {
    LaunchRows(FusedCastSwiglu, DivCeil(n, 256), 256, [gate, up, out, n])
  }

  function LaunchAddCast(out: Word, x: Word, n: nat): Launch {
    LaunchRows(AddCast, DivCeil(n, 256), 256, [out, x, n])
  }

  /** The two phases of the one-row kernel, or one library call. */
  function GemmExecPlan(e: Eng, p: Plan): seq<Launch> {
    if Paired(e, p) then
      var (ncols, nslabs) := Shape(p.n, p.k);
      [LaunchRows(GemvM1, ncols * nslabs, 256, [p.a, p.b, e.partials, p.n, p.k, nslabs]),
       LaunchRows(GemvM1Reduce, ncols, 256, [e.partials, p.c, p.n, nslabs])]
    else [Launch(CublasGemm, 0, 0, 0, [p.a, p.b, p.c, 1, p.n, p.k])]
  }

  function LaunchP1(table: Word, nplans: nat, grid: nat): Launch {
    LaunchRows(GemvM1Multi, grid, 256, [table, nplans])
  }

  function LaunchP2Qkv(pq: Word, pk: Word, pv: Word, q16: Word, k16: Word, v16: Word, wq: Word, wk: Word,
                       nq: nat, nk: nat, nv: nat, nslabsQ: nat, nslabsK: nat, nslabsV: nat, d: nat, half: nat,
                       pos: nat, eta: Word, scaleQ: Word, scaleK: Word, eps: Word, hn: nat, grid: nat): Launch
  {
    LaunchRows(GemvP2Qkv, grid, 256,
               [pq, pk, pv, q16, k16, v16, wq, wk, nq, nk, nv, nslabsQ, nslabsK, nslabsV, d, half, pos, eta, scaleQ,
                scaleK, eps, hn])
  }

  function LaunchP2GuD(table: Word, grid: nat): Launch {
    LaunchRows(GemvP2GuP1d, grid, 256, [table, 3])
  }

  function LaunchP2AddRms(partials: Word, x: Word, out: Word, w: Word, n: nat, nslabs: nat, eps: Word): Launch {
    LaunchRows(GemvP2AddRms, 1, 256, [partials, x, out, w, n, nslabs, eps])
  }

  function LaunchReduce(partials: Word, c: Word, n: nat, nslabs: nat, grid: nat): Launch {
    LaunchRows(GemvM1Reduce, grid, 256, [partials, c, n, nslabs])
  }

  function LaunchLayer(e: Eng, table: Word, wnext: Word, wffn: Word, wq: Word, wk: Word, li: nat, nLayers: nat,
                       pos: nat, token: nat): Launch
  {
    Launch(DecodeLayerFused, e.layerGrid, 512, e.layerShared,
           [e.consts, table, wnext, wffn, wq, wk, e.bars, li, nLayers, pos, token])
  }

  // ---- the split step --------------------------------------------------------------------------------

  function EagerGather(e: Eng, token: nat): Launch {
    LaunchGather(e.embed, e.x, token, e.hidden)
  }

  function EagerQkv(e: Eng, w: Weights): seq<Launch> {
    var nqk, kvk := e.qHeads * e.headDim, e.kvHeads * e.headDim;
    [LaunchRmsNorm(e.x, e.xn, w.attnNorm, e.hidden, e.eps)]
    + GemmExecPlan(e, w.q) + [LaunchCast(e.cQ, e.q, nqk)]
    + GemmExecPlan(e, w.k) + [LaunchCast(e.cK, e.k, kvk)]
    + GemmExecPlan(e, w.v) + [LaunchCast(e.cV, e.v, kvk)]
  }

  /** The head norms are launched when both are there. */
  function EagerNorms(e: Eng, w: Weights): seq<Launch> {
    if w.qNorm.Some? && w.kNorm.Some? then
      [LaunchRmsHeads(e.q, e.q, w.qNorm.value, e.qHeads, e.headDim, e.eps),
       LaunchRmsHeads(e.k, e.k, w.kNorm.value, e.kvHeads, e.headDim, e.eps)]
    else []
  }

  function EagerRopeQ(e: Eng, pos: nat): Launch {
    LaunchRopeHeads(e.q, e.qHeads, e.headDim / 2, pos, e.eta, e.qScale)
  }

  function EagerRopeK(e: Eng, pos: nat): Launch {
    LaunchRopeHeads(e.k, e.kvHeads, e.headDim / 2, pos, e.eta, e.one)
  }

  function EagerKvWrite(e: Eng, phys: nat, off: nat): Launch {
    LaunchKvWrite(e.k, e.v, e.kv, phys, off, BLOCK_LEN, e.kvHeads, e.headDim, e.nLayer * e.pp)
  }

  /** Flash attention, or the naive kernel if the launch is refused. */
  function EagerAttention(e: Eng, li: nat): Launch {
    var decodePages := Add(e.pages, li * e.pp, 4);
    var flash := LaunchFlash(e.q, decodePages, e.kv, e.lens, e.attn, 1, e.qHeads, e.headDim, BLOCK_LEN, Ratio(e), e.kvHeads,
                             e.pp * BLOCK_LEN, e.nLayer * e.pp, 1);
    match flash
    case Some(l) => l
    case None =>
      LaunchDecodeGqa(e.q, decodePages, e.kv, e.lens, e.scores, e.attn, 1, e.qHeads, e.headDim, BLOCK_LEN, Ratio(e),
                      e.kvHeads, e.nLayer * e.pp, e.nLayer * e.pp)
  }

  function EagerAttend(e: Eng, li: nat, pos: nat): seq<Launch> {
    var lp, off := pos / BLOCK_LEN, pos % BLOCK_LEN;
    [EagerRopeQ(e, pos), EagerRopeK(e, pos), EagerKvWrite(e, li * e.pp + lp, off), EagerAttention(e, li)]
  }

  function EagerFfn(e: Eng, w: Weights): seq<Launch> {
    GemmExecPlan(e, w.o) + [LaunchFusedAddRms(e.x, e.cO, e.xn, w.ffnNorm, e.hidden, e.eps)]
    + GemmExecPlan(e, w.gate) + GemmExecPlan(e, w.up)
    + [LaunchFusedCastSwiglu(e.cG, e.cU, e.down, e.ffn)]
    + GemmExecPlan(e, w.down) + [LaunchAddCast(e.x, e.cD, e.hidden)]
  }

  function EagerLayer(e: Eng, li: nat, pos: nat): seq<Launch>
    requires li < |e.layers|
  {
    EagerQkv(e, e.layers[li]) + EagerNorms(e, e.layers[li]) + EagerAttend(e, li, pos) + EagerFfn(e, e.layers[li])
  }

  /** `n` layers in. */
  function EagerSplitTo(e: Eng, token: nat, pos: nat, n: nat): seq<Launch>
    requires n <= |e.layers|
  {
    if n == 0 then [EagerGather(e, token)] else EagerSplitTo(e, token, pos, n - 1) + EagerLayer(e, n - 1, pos)
  }

  function EagerFinal(e: Eng): seq<Launch> {
    [LaunchRmsNorm(e.x, e.xn, e.finalNorm, e.hidden, e.eps)] + GemmExecPlan(e, e.lmHead)
  }

  function EagerSplit(e: Eng, token: nat, pos: nat): seq<Launch> {
    EagerSplitTo(e, token, pos, |e.layers|) + EagerFinal(e)
  }

  // ---- the fused step ----------------------------------------------------------------------------------

  /** The norm after a layer: the next layer's, or the final one. */
  function Wnext(e: Eng, li: nat): Word {
    if li + 1 < |e.layers| then e.layers[li + 1].attnNorm else e.finalNorm
  }

  /** The head norms as a pair: both pointers, or two nulls. */
  function NormPair(w: Weights): (Word, Word) {
    match (w.qNorm, w.kNorm)
    case (Some(qn), Some(kn)) => (qn, kn)
    case _ => (0, 0)
  }

  function EagerP2Qkv(e: Eng, w: Weights, pos: nat): Launch {
    var (wq, wk) := NormPair(w);
    var nqk, kvk := e.qHeads * e.headDim, e.kvHeads * e.headDim;
    LaunchP2Qkv(e.pq, e.pk, e.pv, e.q, e.k, e.v, wq, wk, nqk, kvk, kvk, e.nslabsQ, e.nslabsK, e.nslabsV, e.headDim,
                e.headDim / 2, pos, e.eta, e.qScale, e.one, e.eps, if e.headNorm then 1 else 0, e.gridQkvP2)
  }

  /** An error of the attention launch fails the fused step. */
  function EagerFusedLayer(e: Eng, li: nat, pos: nat): Option<seq<Launch>>
    requires li < |e.layers|
  {
    var w, table := e.layers[li], Add(e.tables, li * 7, e.rowBytes);
    var flash := LaunchFlashFused(e.q, Add(e.pages, li * e.pp, 4), e.kv, e.lens, e.attn, 1, e.qHeads, e.headDim, BLOCK_LEN,
                                  Ratio(e), e.kvHeads, e.pp * BLOCK_LEN, e.nLayer * e.pp, 1, e.k, e.v);
    if flash.None? then None
    else
      Some([LaunchP1(table, 3, w.gridQkv), EagerP2Qkv(e, w, pos), flash.value,
            LaunchP1(Add(table, 3, e.rowBytes), 1, w.gridO),
            LaunchP2AddRms(e.po, e.x, e.xn, w.ffnNorm, e.hidden, e.nslabsO, e.eps),
            LaunchP1(Add(table, 4, e.rowBytes), 2, w.gridGu),
            LaunchP2GuD(Add(table, 4, e.rowBytes), e.gridGuP2),
            LaunchP2AddRms(e.pd, e.x, e.xn, Wnext(e, li), e.hidden, e.nslabsD, e.eps)])
  }

  function EagerFusedTo(e: Eng, token: nat, pos: nat, n: nat): Option<seq<Launch>>
    requires 0 < |e.layers| && n <= |e.layers|
  {
    if n == 0 then Some([EagerGather(e, token), LaunchRmsNorm(e.x, e.xn, e.layers[0].attnNorm, e.hidden, e.eps)])
    else
      var before, layer := EagerFusedTo(e, token, pos, n - 1), EagerFusedLayer(e, n - 1, pos);
      if before.None? || layer.None? then None else Some(before.value + layer.value)
  }

  function EagerLm(e: Eng): seq<Launch> {
    [LaunchP1(e.lmTable, 1, e.gridLm), LaunchReduce(e.plm, e.logits, e.vocab, 1, e.gridLm)]
  }

  function EagerFused(e: Eng, token: nat, pos: nat): Option<seq<Launch>>
    requires 0 < |e.layers|
  {
    var body := EagerFusedTo(e, token, pos, |e.layers|);
    if body.None? then None else Some(body.value + EagerLm(e))
  }

  // ---- one kernel per layer ------------------------------------------------------------------------------

  /** Only layer 0 reads the token, but all are passed it. */
  function EagerOneKernel(e: Eng, li: nat, token: nat, pos: nat): Launch
    requires li < |e.layers|
  {
    var w := e.layers[li];
    var (wq, wk) := NormPair(w);
    LaunchLayer(e, Add(e.tables, li * 7, e.rowBytes), Wnext(e, li), w.ffnNorm, wq, wk, li, |e.layers|, pos, token)
  }

  function EagerLayersTo(e: Eng, token: nat, pos: nat, n: nat): (r: seq<Launch>)
    requires n <= |e.layers|
    ensures |r| == n && forall li :: 0 <= li < n ==> r[li] == EagerOneKernel(e, li, token, pos)
  {
    if n == 0 then [] else EagerLayersTo(e, token, pos, n - 1) + [EagerOneKernel(e, n - 1, token, pos)]
  }

  function EagerLayerFused(e: Eng, token: nat, pos: nat): seq<Launch> {
    EagerLayersTo(e, token, pos, |e.layers|) + EagerLm(e)
  }

  // ---- what decides the kernels -----------------------------------------------------------------------------

  /** The attention's shared memory fits. */
  predicate FlashFits(e: Eng) {
    (e.headDim + e.pp * BLOCK_LEN) * 4 <= FLASH_SMEM_MAX
  }

  predicate LayerPaired(e: Eng, w: Weights) {
    Paired(e, w.q) && Paired(e, w.k) && Paired(e, w.v) && Paired(e, w.o) && Paired(e, w.gate) && Paired(e, w.up)
    && Paired(e, w.down)
  }

  /** Every projection runs as the kernel pair. */
  predicate AllPaired(e: Eng) {
    Paired(e, e.lmHead) && forall li :: 0 <= li < |e.layers| ==> LayerPaired(e, e.layers[li])
  }

  /** Without room for the flash kernel every layer runs the naive one. */
  lemma NaiveAttention(e: Eng, li: nat)
    ensures EagerAttention(e, li).kernel == if FlashFits(e) then DecodeGqaFlash else DecodeGqa
  {
  }

  /** The naive kernel's call: one block per query head, the layer's own pages, and the score buffer
      between the lengths and the output. */
  lemma NaiveCall(e: Eng, li: nat)
    requires !FlashFits(e)
    ensures EagerAttention(e, li)
         == Launch(DecodeGqa, e.qHeads, 256, 0,
                   [e.q, e.pages + 4 * (li * e.pp), e.kv, e.lens, e.scores, e.attn, 1, e.qHeads, e.headDim, 32, Ratio(e),
                    e.kvHeads, e.nLayer * e.pp, e.nLayer * e.pp])
  {
  }

  lemma {:induction false} NaiveInSplit(e: Eng, token: nat, pos: nat, n: nat)
    requires 0 < n <= |e.layers| && !FlashFits(e)
    ensures exists l :: l in EagerSplitTo(e, token, pos, n) && l.kernel == DecodeGqa
  {
    NaiveAttention(e, n - 1);
    var l := EagerAttention(e, n - 1);
    assert EagerAttend(e, n - 1, pos)[3] == l;
    assert l in EagerLayer(e, n - 1, pos);
  }

  /** The fused step is refused exactly when the attention does not fit. */
  lemma {:induction false} FusedRunsIff(e: Eng, token: nat, pos: nat, n: nat)
    requires 0 < |e.layers| && n <= |e.layers|
    ensures EagerFusedTo(e, token, pos, n).Some? <==> FlashFits(e) || n == 0
  {
    if n > 0 {
      FusedRunsIff(e, token, pos, n - 1);
    }
  }
}
