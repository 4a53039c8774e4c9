/** The three declarations of the decode step, each pushed node by node with its own literals, and
    exactly when launching through them is the eager step. */
module GraphDecl {
  import opened Requests
  import opened Launches
  import opened EagerStep
  import opened GraphCells

  // ---- the eager calls with the step's values left open ------------------------------------------------

  function DeclGather(e: Eng): Node {
    Put(Still(EagerGather(e, 0)), 2, Token)
  }

  function DeclRopeQ(e: Eng): Node {
    Put(Still(EagerRopeQ(e, 0)), 3, Pos)
  }

  function DeclRopeK(e: Eng): Node {
    Put(Still(EagerRopeK(e, 0)), 3, Pos)
  }

  function DeclKvWrite(e: Eng, li: nat): Node {
    Put(Put(Still(EagerKvWrite(e, 0, 0)), 3, Phys(li)), 4, Off)
  }

  function DeclAttend(e: Eng, li: nat): seq<Node> {
    [DeclRopeQ(e), DeclRopeK(e), DeclKvWrite(e, li), Still(EagerAttention(e, li))]
  }

  function DeclLayer(e: Eng, li: nat): seq<Node>
    requires li < |e.layers|
  {
    Stills(EagerQkv(e, e.layers[li])) + Stills(EagerNorms(e, e.layers[li])) + DeclAttend(e, li)
    + Stills(EagerFfn(e, e.layers[li]))
  }

  function DeclSplitTo(e: Eng, n: nat): seq<Node>
    requires n <= |e.layers|
  {
    if n == 0 then [DeclGather(e)] else DeclSplitTo(e, n - 1) + DeclLayer(e, n - 1)
  }

  function DeclSplit(e: Eng): seq<Node> {
    DeclSplitTo(e, |e.layers|) + Stills(EagerFinal(e))
  }

  function DeclP2Qkv(e: Eng, w: Weights): Node {
    Put(Still(EagerP2Qkv(e, w, 0)), 16, Pos)
  }

  function DeclFusedLayer(e: Eng, li: nat): seq<Node>
    requires li < |e.layers| && FlashFits(e)
  {
    Stills(EagerFusedLayer(e, li, 0).value)[1 := DeclP2Qkv(e, e.layers[li])]
  }

  function DeclFusedTo(e: Eng, n: nat): seq<Node>
    requires 0 < |e.layers| && n <= |e.layers| && FlashFits(e)
  {
    if n == 0 then [DeclGather(e), Still(LaunchRmsNorm(e.x, e.xn, e.layers[0].attnNorm, e.hidden, e.eps))]
    else DeclFusedTo(e, n - 1) + DeclFusedLayer(e, n - 1)
  }

  function DeclFused(e: Eng): seq<Node>
    requires 0 < |e.layers| && FlashFits(e)
  {
    DeclFusedTo(e, |e.layers|) + Stills(EagerLm(e))
  }

  /** The head norms matched one by one, a missing one being null. */
  function NormsApart(w: Weights): (Word, Word) {
    (if w.qNorm.Some? then w.qNorm.value else 0, if w.kNorm.Some? then w.kNorm.value else 0)
  }

  function DeclOneKernel(e: Eng, li: nat): (r: Node)
    requires li < |e.layers|
    ensures |r.args| == 11
  {
    var (wq, wk) := NormsApart(e.layers[li]);
    Put(Put(Put(Put(Still(EagerOneKernel(e, li, 0, 0)), 4, Is(wq)), 5, Is(wk)), 9, Pos), 10, Token)
  }

  function DeclLayersTo(e: Eng, n: nat): (r: seq<Node>)
    requires n <= |e.layers|
    ensures |r| == n && forall li :: 0 <= li < n ==> r[li] == DeclOneKernel(e, li)
  {
    if n == 0 then [] else DeclLayersTo(e, n - 1) + [DeclOneKernel(e, n - 1)]
  }

  function DeclLayerFused(e: Eng): seq<Node> {
    DeclLayersTo(e, |e.layers|) + Stills(EagerLm(e))
  }

  // ---- filled in, they are the eager calls ----------------------------------------------------------------

  lemma GatherFilled(e: Eng, v: Step)
    ensures Filled(DeclGather(e), v) == EagerGather(e, v.token)
  {
    assert Filled(DeclGather(e), v).args == EagerGather(e, v.token).args;
  }

  lemma RopesFilled(e: Eng, v: Step)
    ensures Filled(DeclRopeQ(e), v) == EagerRopeQ(e, v.pos) && Filled(DeclRopeK(e), v) == EagerRopeK(e, v.pos)
  {
    assert Filled(DeclRopeQ(e), v).args == EagerRopeQ(e, v.pos).args;
    assert Filled(DeclRopeK(e), v).args == EagerRopeK(e, v.pos).args;
  }

  lemma KvWriteFilled(e: Eng, li: nat, v: Step)
    ensures Filled(DeclKvWrite(e, li), v) == EagerKvWrite(e, li * v.pp + v.pos / BLOCK_LEN, v.pos % BLOCK_LEN)
  {
    assert Filled(DeclKvWrite(e, li), v).args == EagerKvWrite(e, li * v.pp + v.pos / BLOCK_LEN, v.pos % BLOCK_LEN).args;
  }

  lemma AttendFilled(e: Eng, li: nat, v: Step)
    requires v.pp == e.pp
    ensures AllFilled(DeclAttend(e, li), v) == EagerAttend(e, li, v.pos)
  {
    hide EagerAttention, EagerRopeQ, EagerRopeK, EagerKvWrite, DeclRopeQ, DeclRopeK, DeclKvWrite, Filled, Still;
    RopesFilled(e, v);
    KvWriteFilled(e, li, v);
    StillFilled(EagerAttention(e, li), v);
  }

  lemma LayerFilled(e: Eng, li: nat, v: Step)
    requires li < |e.layers| && v.pp == e.pp
    ensures AllFilled(DeclLayer(e, li), v) == EagerLayer(e, li, v.pos)
  {
    hide EagerQkv, EagerNorms, EagerAttend, EagerFfn, DeclAttend, AllFilled, Stills;
    var w := e.layers[li];
    var qkv, norms, ffn := Stills(EagerQkv(e, w)), Stills(EagerNorms(e, w)), Stills(EagerFfn(e, w));
    AttendFilled(e, li, v);
    StillsFilled(EagerQkv(e, w), v);
    StillsFilled(EagerNorms(e, w), v);
    StillsFilled(EagerFfn(e, w), v);
    FilledJoin(qkv, norms, v);
    FilledJoin(qkv + norms, DeclAttend(e, li), v);
    FilledJoin(qkv + norms + DeclAttend(e, li), ffn, v);
  }

  lemma {:induction false} SplitToFilled(e: Eng, v: Step, n: nat)
    requires n <= |e.layers| && v.pp == e.pp
    ensures AllFilled(DeclSplitTo(e, n), v) == EagerSplitTo(e, v.token, v.pos, n)
  {
    hide DeclLayer, EagerLayer, DeclGather, EagerGather;
    if n == 0 {
      GatherFilled(e, v);
    } else {
      SplitToFilled(e, v, n - 1);
      LayerFilled(e, n - 1, v);
      FilledJoin(DeclSplitTo(e, n - 1), DeclLayer(e, n - 1), v);
    }
  }

  /** The split step's calls with places, filled in, are the split eager step. */
  lemma SplitFilled(e: Eng, v: Step)
    requires v.pp == e.pp
    ensures AllFilled(DeclSplit(e), v) == EagerSplit(e, v.token, v.pos)
  {
    hide DeclSplitTo, EagerSplitTo, EagerFinal;
    SplitToFilled(e, v, |e.layers|);
    StillsFilled(EagerFinal(e), v);
    FilledJoin(DeclSplitTo(e, |e.layers|), Stills(EagerFinal(e)), v);
  }

  lemma P2QkvFilled(e: Eng, w: Weights, v: Step)
    ensures Filled(DeclP2Qkv(e, w), v) == EagerP2Qkv(e, w, v.pos)
  {
    assert Filled(DeclP2Qkv(e, w), v).args == EagerP2Qkv(e, w, v.pos).args;
  }

  /** Only the second call of a fused layer depends on the position. */
  lemma FusedLayerParts(e: Eng, li: nat, pos: nat)
    requires li < |e.layers| && FlashFits(e)
    ensures |EagerFusedLayer(e, li, pos).value| == 8
    ensures EagerFusedLayer(e, li, pos).value == EagerFusedLayer(e, li, 0).value[1 := EagerP2Qkv(e, e.layers[li], pos)]
  {
  }

  lemma FusedLayerFilled(e: Eng, li: nat, v: Step)
    requires li < |e.layers| && FlashFits(e)
    ensures AllFilled(DeclFusedLayer(e, li), v) == EagerFusedLayer(e, li, v.pos).value
  {
    FusedLayerParts(e, li, 0);
    FusedLayerParts(e, li, v.pos);
    P2QkvFilled(e, e.layers[li], v);
    hide EagerFusedLayer, EagerP2Qkv, DeclP2Qkv, Filled, Still;
    var zero := EagerFusedLayer(e, li, 0).value;
    forall i | 0 <= i < 8
      ensures AllFilled(DeclFusedLayer(e, li), v)[i] == EagerFusedLayer(e, li, v.pos).value[i]
    {
      StillFilled(zero[i], v);
    }
  }

  lemma {:induction false} FusedToFilled(e: Eng, v: Step, n: nat)
    requires 0 < |e.layers| && n <= |e.layers| && FlashFits(e)
    ensures EagerFusedTo(e, v.token, v.pos, n).Some?
    ensures AllFilled(DeclFusedTo(e, n), v) == EagerFusedTo(e, v.token, v.pos, n).value
  {
    hide DeclFusedLayer, DeclGather, EagerGather, LaunchRmsNorm, Still;
    if n == 0 {
      GatherFilled(e, v);
      StillFilled(LaunchRmsNorm(e.x, e.xn, e.layers[0].attnNorm, e.hidden, e.eps), v);
    } else {
      FusedToFilled(e, v, n - 1);
      FusedLayerFilled(e, n - 1, v);
      FilledJoin(DeclFusedTo(e, n - 1), DeclFusedLayer(e, n - 1), v);
    }
  }

  /** The fused step's calls with places, filled in, are the fused eager step. */
  lemma FusedFilled(e: Eng, v: Step)
    requires 0 < |e.layers| && FlashFits(e)
    ensures EagerFused(e, v.token, v.pos) == Some(AllFilled(DeclFused(e), v))
  {
    hide DeclFusedTo, EagerFusedTo, EagerLm;
    FusedToFilled(e, v, |e.layers|);
    StillsFilled(EagerLm(e), v);
    FilledJoin(DeclFusedTo(e, |e.layers|), Stills(EagerLm(e)), v);
  }

  /** One kernel per layer: the declared node is the eager call exactly when matching the norms
      one by one and as a pair comes to the same. */
  lemma OneKernelFilled(e: Eng, li: nat, v: Step)
    requires li < |e.layers|
    ensures Filled(DeclOneKernel(e, li), v) == EagerOneKernel(e, li, v.token, v.pos)
       <==> NormsApart(e.layers[li]) == NormPair(e.layers[li])
  {
    var a, b := Filled(DeclOneKernel(e, li), v), EagerOneKernel(e, li, v.token, v.pos);
    assert a.args[4] == NormsApart(e.layers[li]).0 && a.args[5] == NormsApart(e.layers[li]).1;
    assert b.args[4] == NormPair(e.layers[li]).0 && b.args[5] == NormPair(e.layers[li]).1;
    if NormsApart(e.layers[li]) == NormPair(e.layers[li]) {
      assert a.args == b.args;
    }
  }

  // ---- building: what a stretch of pushes adds -----------------------------------------------------------

  /** No node from `from` on runs kernel `k`. */
  ghost predicate Lacks(p: seq<Node>, from: nat, k: Kernel) {
    forall i :: from <= i < |p| ==> p[i].kernel != k
  }

  lemma LacksJoin(p1: seq<Node>, p2: seq<Node>, from: nat, k: Kernel)
    requires from <= |p1| <= |p2| && p2[..|p1|] == p1
    ensures Lacks(p2, from, k) <==> Lacks(p1, from, k) && Lacks(p2, |p1|, k)
  {
    forall i | from <= i < |p1|
      ensures p2[i] == p1[i]
    {
      assert p2[..|p1|][i] == p2[i];
    }
  }

  /** `p1` extends `p0` by as many nodes as `ns`, by `ns` itself if `exact`, without a library call
      exactly if `custom`, and never by the naive attention. */
  ghost predicate Adds(p0: seq<Node>, p1: seq<Node>, ns: seq<Node>, exact: bool, custom: bool) {
    && |p1| == |p0| + |ns| && p1[..|p0|] == p0
    && (exact ==> p1 == p0 + ns)
    && Lacks(p1, |p0|, DecodeGqa)
    && (custom <==> Lacks(p1, |p0|, CublasGemm))
  }

  lemma AddsJoin(p0: seq<Node>, p1: seq<Node>, p2: seq<Node>, ns: seq<Node>, ms: seq<Node>,
                 exact: bool, custom: bool, exact': bool, custom': bool)
    requires Adds(p0, p1, ns, exact, custom) && Adds(p1, p2, ms, exact', custom')
    ensures Adds(p0, p2, ns + ms, exact && exact', custom && custom')
  {
    hide Lacks;
    assert p2[..|p0|] == p2[..|p1|][..|p0|];
    LacksJoin(p1, p2, |p0|, DecodeGqa);
    LacksJoin(p1, p2, |p0|, CublasGemm);
  }

  /** Nodes of kernels of our own are added as they are. */
  lemma AddsOwn(p0: seq<Node>, ns: seq<Node>)
    requires forall i :: 0 <= i < |ns| ==> ns[i].kernel != DecodeGqa && ns[i].kernel != CublasGemm
    ensures Adds(p0, p0 + ns, ns, true, true)
  {
  }

  // ---- the split declaration --------------------------------------------------------------------------------

  /** A projection: the kernel pair's two nodes, or the library's, which holds its shape. */
  method DeclareGemm(d: GraphStepDecl, e: Eng, pl: Plan)
    requires d.Ready()
    modifies d`specs, d`cellOff, d`cells, d`program, d`flat
    ensures d.Ready() && Adds(old(d.program), d.program, Stills(GemmExecPlan(e, pl)), Paired(e, pl), Paired(e, pl))
  {
    ghost var p0 := d.program;
    if e.jgemm && pl.m1 {
      var (ncols, nslabs) := Shape(pl.n, pl.k);
      d.Plain(GemvM1, 6, ncols * nslabs, 256, 0, [pl.a, pl.b, e.partials, pl.n, pl.k, nslabs]);
      d.Plain(GemvM1Reduce, 4, ncols, 256, 0, [e.partials, pl.c, pl.n, nslabs]);
      assert d.program == p0 + Stills(GemmExecPlan(e, pl));
      AddsOwn(p0, Stills(GemmExecPlan(e, pl)));
    } else {
      d.Plain(CublasGemm, 3, 1, 256, 0, [1, pl.n, pl.k]);
      assert d.program[|p0|].kernel == CublasGemm;
    }
  }

  /** One node of a kernel of our own, as the eager step launches it. */
  method DeclarePlain(d: GraphStepDecl, kernel: Kernel, slots: nat, grid: nat, block: nat, shared: nat, vals: seq<Word>)
    requires d.Ready() && slots == |vals| && kernel != DecodeGqa && kernel != CublasGemm
    modifies d`specs, d`cellOff, d`cells, d`program, d`flat
    ensures d.Ready() && Adds(old(d.program), d.program, Stills([Launch(kernel, grid, block, shared, vals)]), true, true)
  {
    ghost var p0 := d.program;
    d.Plain(kernel, slots, grid, block, shared, vals);
    assert Stills([Launch(kernel, grid, block, shared, vals)]) == [Still(Launch(kernel, grid, block, shared, vals))];
    AddsOwn(p0, Stills([Launch(kernel, grid, block, shared, vals)]));
  }

  /** Two stretches that mirror two runs of eager calls. */
  lemma StretchJoin(p0: seq<Node>, p1: seq<Node>, p2: seq<Node>, a: seq<Launch>, b: seq<Launch>, x: bool, y: bool)
    requires Adds(p0, p1, Stills(a), x, x) && Adds(p1, p2, Stills(b), y, y)
    ensures Adds(p0, p2, Stills(a + b), x && y, x && y)
  {
    AddsJoin(p0, p1, p2, Stills(a), Stills(b), x, x, y, y);
    StillsJoin(a, b);
  }

  predicate QkvPaired(e: Eng, w: Weights) {
    Paired(e, w.q) && Paired(e, w.k) && Paired(e, w.v)
  }

  /** A projection and the cast of its result. */
  method DeclareProjection(d: GraphStepDecl, e: Eng, pl: Plan, from: Word, to: Word, n: nat)
    requires d.Ready()
    modifies d`specs, d`cellOff, d`cells, d`program, d`flat
    ensures d.Ready()
    ensures Adds(old(d.program), d.program, Stills(GemmExecPlan(e, pl) + [LaunchCast(from, to, n)]), Paired(e, pl), Paired(e, pl))
  {
    hide GraphStepDecl.Ready, Adds, Stills, GemmExecPlan;
    ghost var p0 := d.program;
    DeclareGemm(d, e, pl);
    ghost var p1 := d.program;
    DeclarePlain(d, CastF32F16, 3, DivCeil(n, 256), 256, 0, [from, to, n]);
    StretchJoin(p0, p1, d.program, GemmExecPlan(e, pl), [LaunchCast(from, to, n)], Paired(e, pl), true);
  }

  method DeclareQkv(d: GraphStepDecl, e: Eng, w: Weights)
    requires d.Ready()
    modifies d`specs, d`cellOff, d`cells, d`program, d`flat
    ensures d.Ready() && Adds(old(d.program), d.program, Stills(EagerQkv(e, w)), QkvPaired(e, w), QkvPaired(e, w))
  {
    hide GraphStepDecl.Ready, Adds, Stills, GemmExecPlan;
    var nqk, kvk := e.qHeads * e.headDim, e.kvHeads * e.headDim;
    ghost var p0 := d.program;
    DeclarePlain(d, RmsNormRow, 5, 1, 256, 0, [e.x, e.xn, w.attnNorm, e.hidden, e.eps]);
    ghost var norm, p1 := [LaunchRmsNorm(e.x, e.xn, w.attnNorm, e.hidden, e.eps)], d.program;
    DeclareProjection(d, e, w.q, e.cQ, e.q, nqk);
    ghost var q, p2 := GemmExecPlan(e, w.q) + [LaunchCast(e.cQ, e.q, nqk)], d.program;
    DeclareProjection(d, e, w.k, e.cK, e.k, kvk);
    ghost var k, p3 := GemmExecPlan(e, w.k) + [LaunchCast(e.cK, e.k, kvk)], d.program;
    DeclareProjection(d, e, w.v, e.cV, e.v, kvk);
    ghost var v := GemmExecPlan(e, w.v) + [LaunchCast(e.cV, e.v, kvk)];
    StretchJoin(p0, p1, p2, norm, q, true, Paired(e, w.q));
    StretchJoin(p0, p2, p3, norm + q, k, Paired(e, w.q), Paired(e, w.k));
    StretchJoin(p0, p3, d.program, norm + q + k, v, Paired(e, w.q) && Paired(e, w.k), Paired(e, w.v));
    assert norm + q + k + v == EagerQkv(e, w);
  }

  /** The head norms of the queries and keys, if both are there. */
  method DeclareNorms(d: GraphStepDecl, e: Eng, w: Weights)
    requires d.Ready()
    modifies d`specs, d`cellOff, d`cells, d`program, d`flat
    ensures d.Ready() && Adds(old(d.program), d.program, Stills(EagerNorms(e, w)), true, true)
  {
    hide GraphStepDecl.Ready, Adds, Stills;
    ghost var p0 := d.program;
    match (w.qNorm, w.kNorm)
    case (Some(qn), Some(kn)) =>
      DeclarePlain(d, RmsNormHeads, 6, e.qHeads, 256, 0, [e.q, e.q, qn, e.qHeads, e.headDim, e.eps]);
      ghost var p1 := d.program;
      DeclarePlain(d, RmsNormHeads, 6, e.kvHeads, 256, 0, [e.k, e.k, kn, e.kvHeads, e.headDim, e.eps]);
      ghost var first := [LaunchRmsHeads(e.q, e.q, qn, e.qHeads, e.headDim, e.eps)];
      ghost var second := [LaunchRmsHeads(e.k, e.k, kn, e.kvHeads, e.headDim, e.eps)];
      StretchJoin(p0, p1, d.program, first, second, true, true);
      assert first + second == EagerNorms(e, w);
    case _ =>
      NoNodes(p0);
  }

  lemma NoNodes(p: seq<Node>)
    ensures Adds(p, p, Stills([]), true, true)
  {
  }

  /** The two rotations, at the step's position. */
  method DeclareRopes(d: GraphStepDecl, e: Eng)
    requires d.Ready()
    modifies d`specs, d`cellOff, d`cells, d`program, d`flat, d`refresh, d`named, d`ropeQ, d`ropeK
    ensures d.Ready() && d.program == old(d.program) + [DeclRopeQ(e), DeclRopeK(e)]
  {
    hide GraphStepDecl.Valid, GraphStepDecl.Named, Still, Put;
    var q := d.PushPos(RopeHeads, 6, e.qHeads, 256, 0, [e.q, e.qHeads, e.headDim / 2, 0, e.eta, e.qScale], 3);
    var k := d.PushPos(RopeHeads, 6, e.kvHeads, 256, 0, [e.k, e.kvHeads, e.headDim / 2, 0, e.eta, e.one], 3);
    d.RecordRopes(q, k);
  }

  /** The key/value write, with the layer's page and the slot in it open. */
  method DeclareKvWrite(d: GraphStepDecl, e: Eng)
    requires d.Ready()
    modifies d`specs, d`cellOff, d`cells, d`program, d`flat, d`refresh, d`named, d`kvPhys, d`kvOff
    ensures d.Ready() && |d.kvPhys| == |old(d.kvPhys)| + 1
    ensures d.program == old(d.program) + [DeclKvWrite(e, |old(d.kvPhys)|)]
  {
    hide GraphStepDecl.Ready, Still, Put;
    d.PushPage(KvWriteRow, 9, DivCeil(e.kvHeads * e.headDim, 256), 256, 0,
               [e.k, e.v, e.kv, 0, 0, BLOCK_LEN, e.kvHeads, e.headDim, e.nLayer * e.pp], 3, 4);
  }

  /** The flash attention, whatever its shared memory. */
  method DeclareFlash(d: GraphStepDecl, e: Eng, li: nat)
    requires d.Ready()
    modifies d`specs, d`cellOff, d`cells, d`program, d`flat
    ensures d.Ready() && Adds(old(d.program), d.program, [Still(EagerAttention(e, li))], FlashFits(e), true)
  {
    hide GraphStepDecl.Ready, Still, EagerAttention, Adds;
    var maxKv := e.pp * BLOCK_LEN;
    var pageLi := Add(e.pages, li * e.pp, 4);
    var flashShared := (e.headDim + maxKv) * 4;
    ghost var p0 := d.program;
    d.Plain(DecodeGqaFlash, 14, e.qHeads, 512, flashShared,
            [e.q, pageLi, e.kv, e.lens, e.attn, 1, e.qHeads, e.headDim, BLOCK_LEN, Ratio(e), e.kvHeads, maxKv, e.nLayer * e.pp, 1]);
    ghost var l := Launch(DecodeGqaFlash, e.qHeads, 512, flashShared,
                          [e.q, pageLi, e.kv, e.lens, e.attn, 1, e.qHeads, e.headDim, BLOCK_LEN, Ratio(e), e.kvHeads, maxKv,
                           e.nLayer * e.pp, 1]);
    if FlashFits(e) {
      FlashIs(e, li);
    }
    FlashAdds(p0, l, EagerAttention(e, li), FlashFits(e));
  }

  lemma FlashIs(e: Eng, li: nat)
    requires FlashFits(e)
    ensures EagerAttention(e, li) == Launch(DecodeGqaFlash, e.qHeads, 512, (e.headDim + e.pp * BLOCK_LEN) * 4,
              [e.q, Add(e.pages, li * e.pp, 4), e.kv, e.lens, e.attn, 1, e.qHeads, e.headDim, BLOCK_LEN, Ratio(e), e.kvHeads,
               e.pp * BLOCK_LEN, e.nLayer * e.pp, 1])
  {
  }

  lemma FlashAdds(p: seq<Node>, l: Launch, eager: Launch, fits: bool)
    requires l.kernel == DecodeGqaFlash
    ensures (fits ==> l == eager) ==> Adds(p, p + [Still(l)], [Still(eager)], fits, true)
  {
  }

  method DeclareAttend(d: GraphStepDecl, e: Eng, li: nat)
    requires d.Ready() && |d.kvPhys| == li
    modifies d`specs, d`cellOff, d`cells, d`program, d`flat, d`refresh, d`named, d`ropeQ, d`ropeK, d`kvPhys, d`kvOff
    ensures d.Ready() && |d.kvPhys| == li + 1
    ensures Adds(old(d.program), d.program, DeclAttend(e, li), FlashFits(e), true)
  {
    hide GraphStepDecl.Ready, Adds, DeclRopeQ, DeclRopeK, DeclKvWrite, EagerAttention;
    ghost var p0 := d.program;
    DeclareRopes(d, e);
    DeclareKvWrite(d, e);
    ghost var p1 := d.program;
    assert p1 == p0 + [DeclRopeQ(e), DeclRopeK(e), DeclKvWrite(e, li)];
    OwnKernels(e, li);
    AddsOwn(p0, [DeclRopeQ(e), DeclRopeK(e), DeclKvWrite(e, li)]);
    DeclareFlash(d, e, li);
    AddsJoin(p0, p1, d.program, [DeclRopeQ(e), DeclRopeK(e), DeclKvWrite(e, li)], [Still(EagerAttention(e, li))],
             true, true, FlashFits(e), true);
    assert [DeclRopeQ(e), DeclRopeK(e), DeclKvWrite(e, li)] + [Still(EagerAttention(e, li))] == DeclAttend(e, li);
  }

  lemma OwnKernels(e: Eng, li: nat)
    ensures DeclRopeQ(e).kernel == RopeHeads && DeclRopeK(e).kernel == RopeHeads && DeclKvWrite(e, li).kernel == KvWriteRow
  {
  }

  predicate FfnPaired(e: Eng, w: Weights) {
    Paired(e, w.o) && Paired(e, w.gate) && Paired(e, w.up) && Paired(e, w.down)
  }

  method DeclareFfn(d: GraphStepDecl, e: Eng, w: Weights)
    requires d.Ready()
    modifies d`specs, d`cellOff, d`cells, d`program, d`flat
    ensures d.Ready() && Adds(old(d.program), d.program, Stills(EagerFfn(e, w)), FfnPaired(e, w), FfnPaired(e, w))
  {
    hide GraphStepDecl.Ready, Adds, Stills, GemmExecPlan;
    ghost var o, gate, up, down := GemmExecPlan(e, w.o), GemmExecPlan(e, w.gate), GemmExecPlan(e, w.up), GemmExecPlan(e, w.down);
    ghost var add := [LaunchFusedAddRms(e.x, e.cO, e.xn, w.ffnNorm, e.hidden, e.eps)];
    ghost var glu, rest := [LaunchFusedCastSwiglu(e.cG, e.cU, e.down, e.ffn)], [LaunchAddCast(e.x, e.cD, e.hidden)];
    ghost var po, pg, pu, pd := Paired(e, w.o), Paired(e, w.gate), Paired(e, w.up), Paired(e, w.down);
    ghost var p0 := d.program;
    DeclareGemm(d, e, w.o);
    ghost var p1 := d.program;
    DeclarePlain(d, FusedAddRms, 6, 1, 256, 0, [e.x, e.cO, e.xn, w.ffnNorm, e.hidden, e.eps]);
    ghost var p2 := d.program;
    StretchJoin(p0, p1, p2, o, add, po, true);
    DeclareGemm(d, e, w.gate);
    ghost var p3 := d.program;
    StretchJoin(p0, p2, p3, o + add, gate, po, pg);
    DeclareGemm(d, e, w.up);
    ghost var p4 := d.program;
    StretchJoin(p0, p3, p4, o + add + gate, up, po && pg, pu);
    DeclarePlain(d, FusedCastSwiglu, 4, DivCeil(e.ffn, 256), 256, 0, [e.cG, e.cU, e.down, e.ffn]);
    ghost var p5 := d.program;
    StretchJoin(p0, p4, p5, o + add + gate + up, glu, po && pg && pu, true);
    DeclareGemm(d, e, w.down);
    ghost var p6 := d.program;
    StretchJoin(p0, p5, p6, o + add + gate + up + glu, down, po && pg && pu, pd);
    DeclarePlain(d, AddCast, 3, DivCeil(e.hidden, 256), 256, 0, [e.x, e.cD, e.hidden]);
    StretchJoin(p0, p6, d.program, o + add + gate + up + glu + down, rest, po && pg && pu && pd, true);
  }

  /** Layer `li` is mirrored exactly if its projections run as pairs and its attention fits. */
  method DeclareLayer(d: GraphStepDecl, e: Eng, li: nat)
    requires d.Ready() && |d.kvPhys| == li < |e.layers|
    modifies d`specs, d`cellOff, d`cells, d`program, d`flat, d`refresh, d`named, d`ropeQ, d`ropeK, d`kvPhys, d`kvOff
    ensures d.Ready() && |d.kvPhys| == li + 1
    ensures Adds(old(d.program), d.program, DeclLayer(e, li), LayerPaired(e, e.layers[li]) && FlashFits(e), LayerPaired(e, e.layers[li]))
  {
    hide GraphStepDecl.Ready, Adds, Stills, EagerQkv, EagerNorms, EagerFfn, DeclAttend, FlashFits;
    var w := e.layers[li];
    ghost var qkv, norms, ffn := Stills(EagerQkv(e, w)), Stills(EagerNorms(e, w)), Stills(EagerFfn(e, w));
    ghost var attend, p0 := DeclAttend(e, li), d.program;
    DeclareQkv(d, e, w);
    ghost var p1 := d.program;
    DeclareNorms(d, e, w);
    ghost var p2 := d.program;
    AddsJoin(p0, p1, p2, qkv, norms, QkvPaired(e, w), QkvPaired(e, w), true, true);
    DeclareAttend(d, e, li);
    ghost var p3 := d.program;
    AddsJoin(p0, p2, p3, qkv + norms, attend, QkvPaired(e, w), QkvPaired(e, w), FlashFits(e), true);
    DeclareFfn(d, e, w);
    AddsJoin(p0, p3, d.program, qkv + norms + attend, ffn, QkvPaired(e, w) && FlashFits(e), QkvPaired(e, w), FfnPaired(e, w), FfnPaired(e, w));
  }

  predicate PairedTo(e: Eng, n: nat) {
    forall li :: 0 <= li < n && li < |e.layers| ==> LayerPaired(e, e.layers[li])
  }

  /** All layers, after the gather. */
  method DeclareBody(d: GraphStepDecl, e: Eng)
    requires d.Ready() && d.program == [DeclGather(e)] && d.kvPhys == []
    modifies d`specs, d`cellOff, d`cells, d`program, d`flat, d`refresh, d`named, d`ropeQ, d`ropeK, d`kvPhys, d`kvOff
    ensures d.Ready()
    ensures Adds([], d.program, DeclSplitTo(e, |e.layers|), PairedTo(e, |e.layers|) && (FlashFits(e) || |e.layers| == 0),
                 PairedTo(e, |e.layers|))
  {
    hide GraphStepDecl.Ready, DeclLayer, FlashFits, LayerPaired, Adds;
    GatherAdds(e);
    var li := 0;
    while li < |e.layers|
      invariant li <= |e.layers| && d.Ready() && |d.kvPhys| == li
      invariant Adds([], d.program, DeclSplitTo(e, li), PairedTo(e, li) && (FlashFits(e) || li == 0), PairedTo(e, li))
    {
      ghost var p := d.program;
      DeclareLayer(d, e, li);
      LayerAdds(e, li, p, d.program);
      li := li + 1;
    }
  }

  lemma GatherAdds(e: Eng)
    ensures Adds([], [DeclGather(e)], DeclSplitTo(e, 0), true, true)
  {
  }

  lemma LayerAdds(e: Eng, li: nat, p: seq<Node>, p': seq<Node>)
    requires li < |e.layers|
    requires Adds([], p, DeclSplitTo(e, li), PairedTo(e, li) && (FlashFits(e) || li == 0), PairedTo(e, li))
    requires Adds(p, p', DeclLayer(e, li), LayerPaired(e, e.layers[li]) && FlashFits(e), LayerPaired(e, e.layers[li]))
    ensures Adds([], p', DeclSplitTo(e, li + 1), PairedTo(e, li + 1) && (FlashFits(e) || li + 1 == 0), PairedTo(e, li + 1))
  {
    hide Adds, DeclLayer, LayerPaired, FlashFits;
    AddsJoin([], p, p', DeclSplitTo(e, li), DeclLayer(e, li), PairedTo(e, li) && (FlashFits(e) || li == 0), PairedTo(e, li),
             LayerPaired(e, e.layers[li]) && FlashFits(e), LayerPaired(e, e.layers[li]));
    assert PairedTo(e, li + 1) <==> PairedTo(e, li) && LayerPaired(e, e.layers[li]);
  }

  method DeclareFinal(d: GraphStepDecl, e: Eng)
    requires d.Ready()
    modifies d`specs, d`cellOff, d`cells, d`program, d`flat
    ensures d.Ready() && Adds(old(d.program), d.program, Stills(EagerFinal(e)), Paired(e, e.lmHead), Paired(e, e.lmHead))
  {
    hide GraphStepDecl.Ready, Adds, Stills, GemmExecPlan;
    ghost var p0 := d.program;
    DeclarePlain(d, RmsNormRow, 5, 1, 256, 0, [e.x, e.xn, e.finalNorm, e.hidden, e.eps]);
    ghost var p1 := d.program;
    DeclareGemm(d, e, e.lmHead);
    StretchJoin(p0, p1, d.program, [LaunchRmsNorm(e.x, e.xn, e.finalNorm, e.hidden, e.eps)], GemmExecPlan(e, e.lmHead),
                true, Paired(e, e.lmHead));
  }

  /** The declaration of the split step. */
  method Build(e: Eng) returns (d: GraphStepDecl)
    ensures fresh(d) && d.Ready()
    ensures Adds([], d.program, DeclSplit(e), AllPaired(e) && (FlashFits(e) || e.layers == []), AllPaired(e))
  {
    hide GraphStepDecl.Ready, Adds, Stills, DeclLayer, EagerFinal, FlashFits, LayerPaired;
    d := new GraphStepDecl();
    d.First(GatherRow, 4, DivCeil(e.hidden, 256), 256, 0, [e.embed, e.x, 0, e.hidden], 2);
    DeclareBody(d, e);
    ghost var p := d.program;
    DeclareFinal(d, e);
    AddsJoin([], p, d.program, DeclSplitTo(e, |e.layers|), Stills(EagerFinal(e)),
             PairedTo(e, |e.layers|) && (FlashFits(e) || |e.layers| == 0), PairedTo(e, |e.layers|),
             Paired(e, e.lmHead), Paired(e, e.lmHead));
  }

  /** Write the step's variables and, if no node is a library call, launch through the declaration.
      The launches are those of the eager step, whatever the token and position, exactly when the
      attention's shared memory fits, since the eager step falls back to the naive kernel and the
      declaration does not. */
  method StepSplit(d: GraphStepDecl, e: Eng, token: nat, pos: nat) returns (launched: Option<seq<Launch>>)
    requires d.Ready()
    requires Adds([], d.program, DeclSplit(e), AllPaired(e) && (FlashFits(e) || e.layers == []), AllPaired(e))
    modifies d`cells
    ensures d.Ready() && d.program == old(d.program)
    ensures forall c :: 0 <= c < |d.cells| && c < |old(d.cells)| && d.cells[c] != old(d.cells[c]) ==> d.RefreshNames(c)
    ensures launched.Some? <==> AllPaired(e)
    ensures launched.Some? ==> (launched.value == EagerSplit(e, token, pos) <==> FlashFits(e) || e.layers == [])
  {
    hide GraphStepDecl.Ready, GraphStepDecl.RefreshNames, DeclSplit, EagerSplit, AllPaired, FlashFits;
    var all := DeclaredCustom(d);
    var run := d.Run(token, pos, e.pp);
    SplitRunIff(e, d.program, Step(token, pos, e.pp));
    launched := if all then Some(run) else None;
  }

  method DeclaredCustom(d: GraphStepDecl) returns (all: bool)
    requires d.Ready()
    ensures all <==> forall i :: 0 <= i < |d.program| ==> d.program[i].kernel != CublasGemm
  {
    all := d.IsAllCustom();
  }

  lemma SplitRunIff(e: Eng, p: seq<Node>, v: Step)
    requires v.pp == e.pp
    requires Adds([], p, DeclSplit(e), AllPaired(e) && (FlashFits(e) || e.layers == []), AllPaired(e))
    ensures AllPaired(e) ==>
              (AllFilled(p, v) == EagerSplit(e, v.token, v.pos) <==> FlashFits(e) || e.layers == [])
  {
    hide DeclSplit, EagerSplitTo, EagerFinal, FlashFits, AllPaired;
    if AllPaired(e) {
      if FlashFits(e) || e.layers == [] {
        assert p == DeclSplit(e);
        SplitFilled(e, v);
      } else {
        NaiveInSplit(e, v.token, v.pos, |e.layers|);
        var l :| l in EagerSplitTo(e, v.token, v.pos, |e.layers|) && l.kernel == DecodeGqa;
        var i :| 0 <= i < |EagerSplitTo(e, v.token, v.pos, |e.layers|)| && EagerSplitTo(e, v.token, v.pos, |e.layers|)[i] == l;
        assert EagerSplit(e, v.token, v.pos)[i] == l;
        assert forall j :: 0 <= j < |AllFilled(p, v)| ==> AllFilled(p, v)[j] == Filled(p[j], v);
      }
    }
  }

  // ---- the fused declaration ----------------------------------------------------------------------------------

  method DeclareFusedLayer(d: GraphStepDecl, e: Eng, li: nat)
    requires d.Ready() && li < |e.layers|
    modifies d`specs, d`cellOff, d`cells, d`program, d`flat, d`refresh, d`named, d`ropeQ, d`ropeK
    ensures d.Ready() && |d.program| == |old(d.program)| + 8
    ensures FlashFits(e) ==> d.program == old(d.program) + DeclFusedLayer(e, li)
  {
    hide GraphStepDecl.Ready;
    var w, table := e.layers[li], Add(e.tables, li * 7, e.rowBytes);
    ghost var p0 := d.program;
    d.Plain(GemvM1Multi, 2, w.gridQkv, 256, 0, [table, 3]);
    DeclareP2Qkv(d, e, w);
    ghost var p2 := d.program;
    DeclareFlashFused(d, e, li);
    ghost var p3 := d.program;
    d.Plain(GemvM1Multi, 2, w.gridO, 256, 0, [Add(table, 3, e.rowBytes), 1]);
    d.Plain(GemvP2AddRms, 7, 1, 256, 0, [e.po, e.x, e.xn, w.ffnNorm, e.hidden, e.nslabsO, e.eps]);
    d.Plain(GemvM1Multi, 2, w.gridGu, 256, 0, [Add(table, 4, e.rowBytes), 2]);
    d.Plain(GemvP2GuP1d, 2, e.gridGuP2, 256, 0, [Add(table, 4, e.rowBytes), 3]);
    var wnext := if li + 1 < |e.layers| then e.layers[li + 1].attnNorm else e.finalNorm;
    d.Plain(GemvP2AddRms, 7, 1, 256, 0, [e.pd, e.x, e.xn, wnext, e.hidden, e.nslabsD, e.eps]);
    FusedLayerIs(e, li, p0, p2, p3, d.program);
  }

  lemma FusedLayerIs(e: Eng, li: nat, p0: seq<Node>, p2: seq<Node>, p3: seq<Node>, p: seq<Node>)
    requires li < |e.layers|
    requires var table := Add(e.tables, li * 7, e.rowBytes); var w := e.layers[li];
             && p2 == p0 + [Still(LaunchP1(table, 3, w.gridQkv))] + [DeclP2Qkv(e, w)]
             && |p3| == |p2| + 1 && p3[..|p2|] == p2
             && p == p3 + [Still(LaunchP1(Add(table, 3, e.rowBytes), 1, w.gridO))]
                        + [Still(LaunchP2AddRms(e.po, e.x, e.xn, w.ffnNorm, e.hidden, e.nslabsO, e.eps))]
                        + [Still(LaunchP1(Add(table, 4, e.rowBytes), 2, w.gridGu))]
                        + [Still(LaunchP2GuD(Add(table, 4, e.rowBytes), e.gridGuP2))]
                        + [Still(LaunchP2AddRms(e.pd, e.x, e.xn, Wnext(e, li), e.hidden, e.nslabsD, e.eps))]
    requires FlashFits(e) ==> EagerFusedLayer(e, li, 0).Some? && p3[|p2|] == Still(EagerFusedLayer(e, li, 0).value[2])
    ensures |p| == |p0| + 8 && (FlashFits(e) ==> p == p0 + DeclFusedLayer(e, li))
  {
    hide Still, DeclP2Qkv, LaunchP1, LaunchP2AddRms, LaunchP2GuD, EagerP2Qkv, Wnext;
    if FlashFits(e) {
      var ns := DeclFusedLayer(e, li);
      assert p3 == p2 + [p3[|p2|]];
      assert p == p0 + ns;
    }
  }

  /** Both head norms, or two nulls. */
  method PairedNorms(w: Weights) returns (wq: Word, wk: Word)
    ensures (wq, wk) == NormPair(w)
  {
    wq, wk := 0, 0;
    match (w.qNorm, w.kNorm) {
      case (Some(qn), Some(kn)) => wq, wk := qn, kn;
      case _ =>
    }
  }

  method DeclareP2Qkv(d: GraphStepDecl, e: Eng, w: Weights)
    requires d.Ready()
    modifies d`specs, d`cellOff, d`cells, d`program, d`flat, d`refresh, d`named, d`ropeQ, d`ropeK
    ensures d.Ready() && d.program == old(d.program) + [DeclP2Qkv(e, w)]
  {
    hide GraphStepDecl.Valid, GraphStepDecl.Named, Still, Put, NormPair;
    var nqk, kvk, hn := e.qHeads * e.headDim, e.kvHeads * e.headDim, if e.headNorm then 1 else 0;
    var wq, wk := PairedNorms(w);
    var pos := d.PushPos(GemvP2Qkv, 22, e.gridQkvP2, 256, 0,
                         [e.pq, e.pk, e.pv, e.q, e.k, e.v, wq, wk, nqk, kvk, kvk, e.nslabsQ, e.nslabsK, e.nslabsV, e.headDim,
                          e.headDim / 2, 0, e.eta, e.qScale, e.one, e.eps, hn], 16);
    d.RecordRopes(pos, pos);
  }

  method DeclareFlashFused(d: GraphStepDecl, e: Eng, li: nat)
    requires d.Ready() && li < |e.layers|
    modifies d`specs, d`cellOff, d`cells, d`program, d`flat
    ensures d.Ready() && |d.program| == |old(d.program)| + 1 && d.program[..|old(d.program)|] == old(d.program)
    ensures FlashFits(e) ==>
              EagerFusedLayer(e, li, 0).Some? && d.program[|old(d.program)|] == Still(EagerFusedLayer(e, li, 0).value[2])
  {
    hide GraphStepDecl.Ready, Still;
    var maxKv := e.pp * BLOCK_LEN;
    var pageLi := Add(e.pages, li * e.pp, 4);
    var flashShared := (e.headDim + maxKv) * 4;
    d.Plain(DecodeGqaFlashFused, 16, e.qHeads, 512, flashShared,
            [e.q, pageLi, e.kv, e.lens, e.attn, 1, e.qHeads, e.headDim, BLOCK_LEN, Ratio(e), e.kvHeads, maxKv, e.nLayer * e.pp,
             1, e.k, e.v]);
  }

  method DeclareLm(d: GraphStepDecl, e: Eng)
    requires d.Ready()
    modifies d`specs, d`cellOff, d`cells, d`program, d`flat
    ensures d.Ready() && d.program == old(d.program) + Stills(EagerLm(e))
  {
    hide GraphStepDecl.Ready;
    d.Plain(GemvM1Multi, 2, e.gridLm, 256, 0, [e.lmTable, 1]);
    d.Plain(GemvM1Reduce, 4, e.gridLm, 256, 0, [e.plm, e.logits, e.vocab, 1]);
  }

  /** The declaration of the fused step. */
  method BuildFused(e: Eng) returns (d: GraphStepDecl)
    requires 0 < |e.layers|
    ensures fresh(d) && d.Ready()
    ensures |d.program| == ExpectedNodeCount(|e.layers|, e.headNorm, true, true, false)
    ensures FlashFits(e) ==> d.program == DeclFused(e)
  {
    hide GraphStepDecl.Ready, DeclFusedLayer, FlashFits, Still;
    d := new GraphStepDecl();
    d.First(GatherRow, 4, DivCeil(e.hidden, 256), 256, 0, [e.embed, e.x, 0, e.hidden], 2);
    d.Plain(RmsNormRow, 5, 1, 256, 0, [e.x, e.xn, e.layers[0].attnNorm, e.hidden, e.eps]);
    var li := 0;
    while li < |e.layers|
      invariant li <= |e.layers| && d.Ready() && |d.program| == 2 + 8 * li
      invariant FlashFits(e) ==> d.program == DeclFusedTo(e, li)
    {
      DeclareFusedLayer(d, e, li);
      li := li + 1;
    }
    DeclareLm(d, e);
  }

  /** The fused step through the declaration is the fused eager step exactly when the attention
      fits; otherwise the eager one is refused and the caller runs the split step. */
  method StepFused(d: GraphStepDecl, e: Eng, token: nat, pos: nat) returns (launched: seq<Launch>)
    requires d.Ready() && 0 < |e.layers| && (FlashFits(e) ==> d.program == DeclFused(e))
    modifies d`cells
    ensures d.Ready() && d.program == old(d.program)
    ensures forall c :: 0 <= c < |d.cells| && c < |old(d.cells)| && d.cells[c] != old(d.cells[c]) ==> d.RefreshNames(c)
    ensures EagerFused(e, token, pos) == Some(launched) <==> FlashFits(e)
  {
    hide GraphStepDecl.Ready, GraphStepDecl.RefreshNames, DeclFused, EagerFusedTo, EagerLm, FlashFits;
    launched := d.Run(token, pos, e.pp);
    FusedRunsIff(e, token, pos, |e.layers|);
    if FlashFits(e) {
      FusedFilled(e, Step(token, pos, e.pp));
    }
  }

  // ---- how many nodes ------------------------------------------------------------------------------------------

  /** `expected_node_count`. */
  function ExpectedNodeCount(nLayers: nat, headNorm: bool, jgemm: bool, fused: bool, layerFused: bool): nat {
    if layerFused then nLayers + 2
    else if fused then 4 + 8 * nLayers
    else
      var perLayer := (if headNorm then 13 else 11) + (if jgemm then 14 else 7);
      2 + perLayer * nLayers + if jgemm then 2 else 1
  }

  /** Layers with both head norms. */
  function Normed(e: Eng, n: nat): nat
    requires n <= |e.layers|
  {
    if n == 0 then 0
    else Normed(e, n - 1) + if e.layers[n - 1].qNorm.Some? && e.layers[n - 1].kNorm.Some? then 1 else 0
  }

  function Missed(e: Eng, p: Plan): nat {
    if e.jgemm && !p.m1 then 1 else 0
  }

  function MissedIn(e: Eng, w: Weights): nat {
    Missed(e, w.q) + Missed(e, w.k) + Missed(e, w.v) + Missed(e, w.o) + Missed(e, w.gate) + Missed(e, w.up) + Missed(e, w.down)
  }

  /** Projections that the loaded kernel pair does not match. */
  function MissedTo(e: Eng, n: nat): nat
    requires n <= |e.layers|
  {
    if n == 0 then 0 else MissedTo(e, n - 1) + MissedIn(e, e.layers[n - 1])
  }

  function LayerNodes(e: Eng): nat {
    11 + if e.jgemm then 14 else 7
  }

  lemma LayerCount(e: Eng, li: nat, pos: nat)
    requires li < |e.layers|
    ensures |EagerLayer(e, li, pos)| + MissedIn(e, e.layers[li])
         == LayerNodes(e) + if e.layers[li].qNorm.Some? && e.layers[li].kNorm.Some? then 2 else 0
  {
    var w := e.layers[li];
    hide EagerAttention, EagerRopeQ, EagerRopeK, EagerKvWrite, Shape;
    assert |EagerNorms(e, w)| == if w.qNorm.Some? && w.kNorm.Some? then 2 else 0;
    GemmCount(e, w.q);
    GemmCount(e, w.k);
    GemmCount(e, w.v);
    GemmCount(e, w.o);
    GemmCount(e, w.gate);
    GemmCount(e, w.up);
    GemmCount(e, w.down);
  }

  lemma GemmCount(e: Eng, p: Plan)
    ensures |GemmExecPlan(e, p)| + Missed(e, p) == if e.jgemm then 2 else 1
  {
  }

  lemma {:induction false} SplitToCount(e: Eng, token: nat, pos: nat, n: nat)
    requires n <= |e.layers|
    ensures |EagerSplitTo(e, token, pos, n)| + MissedTo(e, n) == 1 + LayerNodes(e) * n + 2 * Normed(e, n)
  {
    hide EagerLayer, LayerNodes, MissedIn;
    if n > 0 {
      var k := LayerNodes(e);
      SplitToCount(e, token, pos, n - 1);
      LayerCount(e, n - 1, pos);
      assert k * n == k * (n - 1) + k;
    }
  }

  /** The split step has the expected node count exactly when the layers with head norms make up
      for the projections the pair misses. */
  lemma SplitCountIff(e: Eng, token: nat, pos: nat)
    ensures |DeclSplit(e)| == |EagerSplit(e, token, pos)|
    ensures |DeclSplit(e)| == ExpectedNodeCount(|e.layers|, e.headNorm, e.jgemm, false, false)
       <==> 2 * Normed(e, |e.layers|) == MissedTo(e, |e.layers|) + Missed(e, e.lmHead) + (if e.headNorm then 2 * |e.layers| else 0)
  {
    var n := |e.layers|;
    SplitFilled(e, Step(token, pos, e.pp));
    SplitToCount(e, token, pos, n);
    GemmCount(e, e.lmHead);
    hide DeclSplit, EagerSplitTo, GemmExecPlan, MissedTo, Normed;
    assert |EagerFinal(e)| == 1 + |GemmExecPlan(e, e.lmHead)|;
    assert (LayerNodes(e) + 2) * n == LayerNodes(e) * n + 2 * n;
  }

  /** The loader reads both head norms of every layer or neither. */
  predicate NormsLoaded(e: Eng) {
    forall li :: 0 <= li < |e.layers| ==> e.layers[li].qNorm.Some? == e.layers[li].kNorm.Some? == e.headNorm
  }

  lemma {:induction false} NormedAll(e: Eng, n: nat)
    requires NormsLoaded(e) && n <= |e.layers|
    ensures Normed(e, n) == if e.headNorm then n else 0
  {
    if n > 0 {
      NormedAll(e, n - 1);
    }
  }

  lemma {:induction false} MissedNone(e: Eng, n: nat)
    requires n <= |e.layers|
    ensures e.jgemm ==> (MissedTo(e, n) == 0 <==> PairedTo(e, n))
    ensures !e.jgemm ==> MissedTo(e, n) == 0
  {
    if n > 0 {
      MissedNone(e, n - 1);
      assert e.jgemm ==> (MissedIn(e, e.layers[n - 1]) == 0 <==> LayerPaired(e, e.layers[n - 1]));
      assert PairedTo(e, n) <==> PairedTo(e, n - 1) && LayerPaired(e, e.layers[n - 1]);
    }
  }

  /** For weights as the loader reads them: exactly when the pair is not loaded or matches every
      projection. */
  lemma LoadedCountIff(e: Eng, token: nat, pos: nat)
    requires NormsLoaded(e)
    ensures |EagerSplit(e, token, pos)| == ExpectedNodeCount(|e.layers|, e.headNorm, e.jgemm, false, false)
       <==> (e.jgemm ==> AllPaired(e))
  {
    SplitCountIff(e, token, pos);
    NormedAll(e, |e.layers|);
    MissedNone(e, |e.layers|);
    hide EagerSplit, DeclSplit, LayerPaired;
    assert AllPaired(e) <==> Paired(e, e.lmHead) && PairedTo(e, |e.layers|);
  }

  // ---- one kernel per layer ---------------------------------------------------------------------------------------

  /** Every eleventh cell of the layer nodes is a position, the next one a token; nothing else is
      a place. */
  predicate PlaceOf(a: Arg, c: nat, n: nat) {
    if c < 11 * n && c % 11 == 9 then a == Pos
    else if c < 11 * n && c % 11 == 10 then a == Token
    else a.Is?
  }

  lemma PlacesGrow(flat: seq<Arg>, n: nat, args: seq<Arg>)
    requires |flat| == 11 * n && forall c :: 0 <= c < |flat| ==> PlaceOf(flat[c], c, n)
    requires |args| == 11 && args[9] == Pos && args[10] == Token && forall k :: 0 <= k < 9 ==> args[k].Is?
    ensures forall c :: 0 <= c < |flat + args| ==> PlaceOf((flat + args)[c], c, n + 1)
  {
  }

  /** `n` layer nodes of eleven arguments each are laid out, with their positions recorded. */
  ghost predicate LayersMade(d: GraphStepDecl, n: nat)
    reads d
  {
    && 11 * n <= |d.flat| && n <= |d.cellOff| && |d.ropeQ| == n && d.ropeK == d.ropeQ && d.kvPhys == [] && d.kvOff == []
    && (forall c :: 0 <= c < |d.flat| ==> PlaceOf(d.flat[c], c, n))
    && (forall l :: 0 <= l < n ==> d.cellOff[l] == 11 * l && d.ropeQ[l] == 11 * l + 9)
  }

  /** Token cells other than the recorded one are never written. */
  ghost predicate Untold(d: GraphStepDecl)
    reads d
  {
    |d.cells| == |d.flat| && forall c :: 0 <= c < |d.flat| && d.flat[c] == Token && c != d.cellToken ==> d.cells[c] == 0
  }

  ghost predicate TokensBlank(d: GraphStepDecl)
    reads d
  {
    |d.cells| == |d.flat| && forall c :: 0 <= c < |d.flat| && d.flat[c] == Token ==> d.cells[c] == 0
  }

  /** The refresh list: every layer's position, and the token of layer 0. */
  predicate LayerRefresh(d: GraphStepDecl, n: nat)
    reads d
  {
    |d.refresh| == n + 1 && d.refresh[n] == (0, 10) && forall li :: 0 <= li < n ==> d.refresh[li] == (li, 9)
  }

  method DeclareOneKernel(d: GraphStepDecl, e: Eng, li: nat)
    requires d.Valid() && LayersMade(d, li) && li < |e.layers| && |d.flat| == 11 * li && |d.cellOff| == li && TokensBlank(d)
    modifies d`specs, d`cellOff, d`cells, d`program, d`flat, d`refresh, d`ropeQ, d`ropeK
    ensures d.Valid() && LayersMade(d, li + 1) && |d.flat| == 11 * (li + 1) && |d.cellOff| == li + 1 && TokensBlank(d)
    ensures d.program == old(d.program) + [DeclOneKernel(e, li)] && d.refresh == old(d.refresh) + [(li, 9)]
  {
    var w := e.layers[li];
    var wnext := if li + 1 < |e.layers| then e.layers[li + 1].attnNorm else e.finalNorm;
    var table := Add(e.tables, li * 7, e.rowBytes);
    var wq, wk := 0, 0;
    match w.qNorm {
      case Some(qn) => wq := qn;
      case None =>
    }
    match w.kNorm {
      case Some(kn) => wk := kn;
      case None =>
    }
    var vals := [e.consts, table, wnext, w.ffnNorm, wq, wk, e.bars, li, |e.layers|, 0, 0];
    ghost var args := DeclOneKernel(e, li).args;
    assert Literals(vals, args) && args[9] == Pos && args[10] == Token && forall k :: 0 <= k < 9 ==> args[k].Is?;
    PushLayer(d, DecodeLayerFused, e.layerGrid, 512, e.layerShared, vals, li, args);
  }

  /** The layer kernel's node, its refresh entry and its two position marks. */
  method PushLayer(d: GraphStepDecl, kernel: Kernel, grid: nat, block: nat, shared: nat, vals: seq<Word>, li: nat, ghost args: seq<Arg>)
    requires d.Valid() && LayersMade(d, li) && |d.flat| == 11 * li && |d.cellOff| == li && TokensBlank(d)
    requires |vals| == |args| == 11 && Literals(vals, args)
    requires args[9] == Pos && args[10] == Token && forall k :: 0 <= k < 9 ==> args[k].Is?
    modifies d`specs, d`cellOff, d`cells, d`program, d`flat, d`refresh, d`ropeQ, d`ropeK
    ensures d.Valid() && LayersMade(d, li + 1) && |d.flat| == 11 * (li + 1) && |d.cellOff| == li + 1 && TokensBlank(d)
    ensures d.program == old(d.program) + [Node(kernel, grid, block, shared, args)] && d.refresh == old(d.refresh) + [(li, 9)]
  {
    PlacesGrow(d.flat, li, args);
    d.Custom(kernel, 11, grid, block, shared, vals, args);
    d.refresh := d.refresh + [(|d.cellOff| - 1, 9)];
    d.ropeQ, d.ropeK := d.ropeQ + [d.CellOf(9)], d.ropeK + [d.CellOf(9)];
  }

  /** The declaration of the one-kernel-per-layer step.  The token's cell is taken from the last
      node pushed, the last layer's; the refresh list names layer 0's. */
  method BuildLayerFused(e: Eng) returns (d: GraphStepDecl)
    requires 0 < |e.layers|
    ensures fresh(d) && d.Valid() && d.Marked() && Untold(d) && LayersMade(d, |e.layers|)
    ensures d.program == DeclLayerFused(e) && |d.program| == ExpectedNodeCount(|e.layers|, e.headNorm, true, true, true)
    ensures d.cellToken == 11 * (|e.layers| - 1) + 10
    ensures LayerRefresh(d, |e.layers|)
  {
    hide DeclOneKernel, LayersMade, Untold, TokensBlank, PlaceOf, Still;
    d := new GraphStepDecl();
    NothingMade(d);
    DeclareLayers(d, e);
    TakeToken(d, |e.layers|);
    PushTail(d, |e.layers|, GemvM1Multi, e.gridLm, [e.lmTable, 1]);
    PushTail(d, |e.layers|, GemvM1Reduce, e.gridLm, [e.plm, e.logits, e.vocab, 1]);
    assert [Still(LaunchP1(e.lmTable, 1, e.gridLm))] + [Still(LaunchReduce(e.plm, e.logits, e.vocab, 1, e.gridLm))] == Stills(EagerLm(e));
  }

  lemma NothingMade(d: GraphStepDecl)
    requires d.Blank()
    ensures LayersMade(d, 0) && TokensBlank(d)
  {
  }

  method DeclareLayers(d: GraphStepDecl, e: Eng)
    requires d.Blank() && LayersMade(d, 0) && TokensBlank(d)
    modifies d`specs, d`cellOff, d`cells, d`program, d`flat, d`refresh, d`ropeQ, d`ropeK
    ensures d.Valid() && d.program == DeclLayersTo(e, |e.layers|)
    ensures LayersMade(d, |e.layers|) && |d.flat| == 11 * |e.layers| && |d.cellOff| == |e.layers| && TokensBlank(d)
    ensures |d.refresh| == |e.layers| && forall li :: 0 <= li < |e.layers| ==> d.refresh[li] == (li, 9)
  {
    hide DeclOneKernel, LayersMade, TokensBlank;
    var li := 0;
    while li < |e.layers|
      invariant li <= |e.layers| && d.Valid() && d.program == DeclLayersTo(e, li)
      invariant LayersMade(d, li) && |d.flat| == 11 * li && |d.cellOff| == li && TokensBlank(d)
      invariant |d.refresh| == li && forall l :: 0 <= l < li ==> d.refresh[l] == (l, 9)
    {
      DeclareOneKernel(d, e, li);
      li := li + 1;
    }
  }

  /** The token's cell, as the code computes it, and the refresh entry. */
  method TakeToken(d: GraphStepDecl, n: nat)
    requires d.Valid() && LayersMade(d, n) && |d.flat| == 11 * n && |d.cellOff| == n > 0 && TokensBlank(d)
    modifies d`cellToken, d`refresh
    ensures d.Valid() && LayersMade(d, n) && Untold(d) && d.cellToken == 11 * (n - 1) + 10
    ensures d.refresh == old(d.refresh) + [(0, 10)]
  {
    d.refresh := d.refresh + [(0, 10)];
    d.cellToken := d.CellOf(10);
  }

  method PushTail(d: GraphStepDecl, n: nat, kernel: Kernel, grid: nat, vals: seq<Word>)
    requires d.Valid() && LayersMade(d, n) && Untold(d) && n > 0 && d.cellToken == 11 * (n - 1) + 10
    modifies d`specs, d`cellOff, d`cells, d`program, d`flat
    ensures d.Valid() && LayersMade(d, n) && Untold(d) && d.Marked()
    ensures d.program == old(d.program) + [Still(Launch(kernel, grid, 256, 0, vals))]
  {
    hide GraphStepDecl.Valid, GraphStepDecl.Marked, Still;
    StillIs(kernel, grid, vals);
    d.Custom(kernel, |vals|, grid, 256, 0, vals, Consts(vals));
    LayersMarked(d, n);
  }

  lemma StillIs(kernel: Kernel, grid: nat, vals: seq<Word>)
    ensures Still(Launch(kernel, grid, 256, 0, vals)) == Node(kernel, grid, 256, 0, Consts(vals))
  {
  }

  lemma LayersMarked(d: GraphStepDecl, n: nat)
    requires LayersMade(d, n) && n > 0 && d.cellToken == 11 * (n - 1) + 10
    ensures d.Marked()
  {
    assert PlaceOf(d.flat[d.cellToken], d.cellToken, n);
    forall l | 0 <= l < n
      ensures d.flat[d.ropeQ[l]] == Pos
    {
      assert PlaceOf(d.flat[11 * l + 9], 11 * l + 9, n);
    }
  }

  /** The head norms of every layer come to the same, matched one by one or as a pair. */
  ghost predicate NormsAgree(e: Eng) {
    forall li :: 0 <= li < |e.layers| ==> NormsApart(e.layers[li]) == NormPair(e.layers[li])
  }

  /** The list names every position mark, and the token's recorded cell only if there is one layer. */
  lemma LayerNames(d: GraphStepDecl, n: nat)
    requires LayersMade(d, n) && LayerRefresh(d, n) && n > 0 && d.cellToken == 11 * (n - 1) + 10
    ensures forall l :: 0 <= l < n ==> d.RefreshNames(d.ropeQ[l])
    ensures d.RefreshNames(d.cellToken) <==> n == 1
  {
    forall l | 0 <= l < n
      ensures d.RefreshNames(d.ropeQ[l])
    {
      assert d.cellOff[d.refresh[l].0] + d.refresh[l].1 == d.ropeQ[l];
    }
    if n == 1 {
      assert d.cellOff[d.refresh[n].0] + d.refresh[n].1 == d.cellToken;
    }
  }

  /** The one-kernel-per-layer declaration launches the eager step exactly when there is one layer
      or the token is 0, as the token never reaches layer 0, which is the layer that reads it, and
      no layer has just one head norm.  Of the cells that change the refresh list names all but the
      recorded token cell, and all of them exactly when there is one layer or that cell held the
      token already. */
  method StepLayerFused(d: GraphStepDecl, e: Eng, token: nat, pos: nat) returns (launched: seq<Launch>)
    requires d.Valid() && d.Marked() && Untold(d) && LayersMade(d, |e.layers|) && d.program == DeclLayerFused(e)
    requires 0 < |e.layers| && d.cellToken == 11 * (|e.layers| - 1) + 10 && LayerRefresh(d, |e.layers|)
    modifies d`cells
    ensures d.Valid() && d.Marked() && Untold(d) && LayersMade(d, |e.layers|) && d.program == old(d.program)
    ensures launched == EagerLayerFused(e, token, pos) <==> (|e.layers| == 1 || token == 0) && NormsAgree(e)
    ensures |d.cells| == |old(d.cells)| && d.cellToken < |d.cells|
    ensures forall c :: 0 <= c < |d.cells| && d.cells[c] != old(d.cells[c]) ==> d.RefreshNames(c) || c == d.cellToken
    ensures (forall c :: 0 <= c < |d.cells| && d.cells[c] != old(d.cells[c]) ==> d.RefreshNames(c))
       <==> |e.layers| == 1 || old(d.cells[d.cellToken]) == token
  {
    hide DeclLayerFused, EagerLayerFused, NormsAgree, GraphStepDecl.RefreshNames;
    d.WriteStep(token, pos, e.pp);
    LayerCells(d, |e.layers|, Step(token, pos, e.pp));
    launched := d.LaunchDecl();
    LayerFusedIff(e, d.program, d.specs, d.cellOff, d.flat, d.cells, Step(token, pos, e.pp), launched);
    LayerNames(d, |e.layers|);
  }

  /** After the write all cells hold the step, except that the token cells before the last hold 0. */
  lemma LayerCells(d: GraphStepDecl, n: nat, v: Step)
    requires d.Valid() && Untold(d) && LayersMade(d, n) && n > 0 && d.cellToken == 11 * (n - 1) + 10
    requires forall c :: 0 <= c < |d.cells| && d.Recorded(c) ==> d.cells[c] == Value(d.flat[c], v)
    ensures (n == 1 || v.token == 0) ==> CellsHold(d.flat, d.cells, v)
    ensures n > 1 ==> d.cells[10] == 0
  {
    forall c | 0 <= c < |d.flat| && (n == 1 || v.token == 0)
      ensures d.cells[c] == Value(d.flat[c], v)
    {
      assert PlaceOf(d.flat[c], c, n);
      if d.flat[c] == Pos {
        assert d.ropeQ[c / 11] == c;
      }
    }
    assert PlaceOf(d.flat[10], 10, n);
  }

  lemma LayerFusedIff(e: Eng, p: seq<Node>, specs: seq<Spec>, off: seq<nat>, flat: seq<Arg>, cells: seq<Word>, v: Step,
                      launched: seq<Launch>)
    requires Laid(p, off, flat) && Specified(p, specs) && p == DeclLayerFused(e) && 0 < |e.layers|
    requires |cells| == |flat| && forall c :: 0 <= c < |flat| && flat[c].Is? ==> cells[c] == flat[c].w
    requires |launched| == |specs| == |off|
    requires forall i :: 0 <= i < |specs| ==> off[i] + specs[i].slots <= |cells| && launched[i] == FromCells(specs[i], off[i], cells)
    requires (|e.layers| == 1 || v.token == 0) ==> CellsHold(flat, cells, v)
    requires |e.layers| > 1 ==> off[0] == 0 && |cells| > 10 && cells[10] == 0
    ensures launched == EagerLayerFused(e, v.token, v.pos) <==> (|e.layers| == 1 || v.token == 0) && NormsAgree(e)
  {
    var eager := EagerLayerFused(e, v.token, v.pos);
    LayersAre(e, v);
    if |e.layers| == 1 || v.token == 0 {
      forall i | 0 <= i < |p|
        ensures launched[i] == Filled(p[i], v)
      {
        NodeIs(p, specs, off, flat, cells, v, i);
      }
      assert launched == AllFilled(p, v);
    } else {
      assert p[0] == DeclOneKernel(e, 0) && eager[0] == EagerOneKernel(e, 0, v.token, v.pos);
      assert launched[0].args[10] == cells[10];
      assert eager[0].args[10] == v.token;
    }
  }

  lemma LayersAre(e: Eng, v: Step)
    ensures AllFilled(DeclLayerFused(e), v) == EagerLayerFused(e, v.token, v.pos) <==> NormsAgree(e)
  {
    hide DeclOneKernel, EagerOneKernel, NormsApart, NormPair, Filled;
    var n, a, b := |e.layers|, AllFilled(DeclLayerFused(e), v), EagerLayerFused(e, v.token, v.pos);
    StillsFilled(EagerLm(e), v);
    FilledJoin(DeclLayersTo(e, n), Stills(EagerLm(e)), v);
    forall li | 0 <= li < n
      ensures a[li] == b[li] <==> NormsApart(e.layers[li]) == NormPair(e.layers[li])
    {
      OneKernelFilled(e, li, v);
    }
    if NormsAgree(e) {
      assert a == b;
    }
  }
}
