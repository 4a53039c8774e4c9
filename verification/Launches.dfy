/** Kernel launches of the decode step, and what the engine fixes at load for all of them. */
module Launches {
  import opened Requests

  const BLOCK_LEN: nat := 32

  type Word = nat

  /** Named after the kernels' entry points. */
  datatype Kernel =
    | GatherRow | RmsNormRow | RmsNormHeads | RopeHeads | CastF32F16 | KvWriteRow
    | DecodeGqa | DecodeGqaFlash | DecodeGqaFlashFused
    | AddCast | FusedAddRms | FusedCastSwiglu
    | GemvM1 | GemvM1Reduce | GemvM1Multi | CublasGemm
    | GemvP2Qkv | GemvP2AddRms | GemvP2GuP1d
    | DecodeLayerFused

  /** One launch: geometry, dynamic shared memory and argument words. */
  datatype Launch = Launch(kernel: Kernel, grid: nat, block: nat, shared: nat, args: seq<Word>)

  /** The projection `[1 x k] * [k x n]`; `m1` when the two-phase kernel pair matches it. */
  datatype Plan = Plan(a: Word, b: Word, c: Word, n: nat, k: nat, m1: bool)

  /** One layer's weights, plans and fused grids. The head norms are two separate options. */
  datatype Weights = Weights(
    attnNorm: Word, ffnNorm: Word, qNorm: Option<Word>, kNorm: Option<Word>,
    q: Plan, k: Plan, v: Plan, o: Plan, gate: Plan, up: Plan, down: Plan,
    gridQkv: nat, gridO: nat, gridGu: nat)

  /** Shapes, addresses, and constants as bit patterns. */
  datatype Eng = Eng(
    hidden: nat, ffn: nat, headDim: nat, qHeads: nat, kvHeads: nat, vocab: nat, nLayer: nat, pp: nat,
    headNorm: bool, eps: Word, eta: Word, qScale: Word, one: Word,
    embed: Word, x: Word, xn: Word, q: Word, k: Word, v: Word, attn: Word, down: Word,
    kv: Word, lens: Word, pages: Word, scores: Word,
    cQ: Word, cK: Word, cV: Word, cO: Word, cG: Word, cU: Word, cD: Word, logits: Word, finalNorm: Word,
    layers: seq<Weights>, lmHead: Plan,
    jgemm: bool, partials: Word,
    // the fused geometry
    tables: Word, rowBytes: nat, lmTable: Word, gridLm: nat, gridQkvP2: nat, gridGuP2: nat,
    pq: Word, pk: Word, pv: Word, po: Word, pd: Word, plm: Word,
    nslabsQ: nat, nslabsK: nat, nslabsV: nat, nslabsO: nat, nslabsD: nat,
    // the one-kernel-per-layer geometry
    consts: Word, bars: Word, layerGrid: nat, layerShared: nat)

  function DivCeil(n: nat, k: nat): nat
    requires k > 0
  {
    (n + k - 1) / k
  }

  /** Pointer arithmetic over elements of `size` bytes. */
  function Add(base: Word, n: nat, size: nat): Word {
    base + n * size
  }

  function Ratio(e: Eng): nat {
    if e.kvHeads == 0 then 0 else e.qHeads / e.kvHeads
  }

  /** Column blocks and slabs of the kernel pair, for the eager launch and the declaration alike. */
  function Shape(n: nat, k: nat): (nat, nat) {
    var ncols := if DivCeil(n, 256) > 1 then DivCeil(n, 256) else 1;
    var target := if 2 * n < k then 192 else 96;
    var most := if k / 32 > 1 then k / 32 else 1;
    var slabs := DivCeil(target, ncols);
    (ncols, if slabs < 1 then 1 else if slabs > most then most else slabs)
  }

  /** The kernel pair runs this plan. */
  predicate Paired(e: Eng, p: Plan) {
    e.jgemm && p.m1
  }
}
