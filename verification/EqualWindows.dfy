/** With the prefix cache off every allocation has the size of one window, and then the pool
    never fragments: a request that admission lets in always finds its segment. */
module EqualWindows {
  import opened Arith
  import opened Requests
  import opened ExecSteps
  import opened SegmentPool

  /** The pool's calls after the anchor was taken: a segment handed out, or given back. */
  datatype PoolOp = Took(base: nat) | Gave(base: nat)

  /** Reference counts, and the bases of the live segments. */
  datatype Pages = Pages(refs: seq<nat>, live: set<nat>)

  /** The pool after `ops`, if each could happen: a segment handed out was free and started
      where a live page or the pool ends, as `Pool.Alloc` promises; one given back was live. */
  function After(total: nat, w: nat, ops: seq<PoolOp>): (r: Option<Pages>)
    requires 0 < w <= total
  {
    if ops == [] then Some(Pages(TakeRefs(seq(total, _ => 0), total - w, w), {}))
    else
      match After(total, w, ops[..|ops| - 1])
      case None => None
      case Some(s) =>
        match ops[|ops| - 1]
        case Took(base) =>
          if FirstFit(s.refs, base, w) then Some(Pages(TakeRefs(s.refs, base, w), s.live + {base})) else None
        case Gave(base) =>
          if base in s.live then Some(Pages(DropRefs(s.refs, base, w), s.live - {base})) else None
  }

  predicate FirstFit(refs: seq<nat>, base: nat, n: nat) {
    && base + n <= |refs| && (forall p :: base <= p < base + n ==> refs[p] == 0)
    && (base > 0 ==> base - 1 < |refs| && refs[base - 1] > 0)
  }

  /** Windows that fit below the anchor: the admission cap before the user's own limit. */
  function Cap(total: nat, w: nat): nat
    requires 0 < w <= total
  {
    (total - w) / w
  }

  function Slot(p: nat, w: nat): nat
    requires w > 0
  {
    p / w
  }

  /** Live segments sit on the grid of windows below the anchor and cover exactly the pages
      that are taken. */
  ghost predicate Gridded(total: nat, w: nat, s: Pages)
    requires 0 < w <= total
  {
    && |s.refs| == total
    && (forall b :: b in s.live ==> b % w == 0 && b + w <= total - w)
    && forall p: nat :: p < total ==>
         s.refs[p] == if total - w <= p || Slot(p, w) * w in s.live then 1 else 0
  }

  lemma SlotBounds(p: nat, w: nat)
    requires w > 0
    ensures Slot(p, w) * w <= p < Slot(p, w) * w + w
    ensures Slot(p, w) * w % w == 0
  {
    DivMod(p, w);
    MulDiv(Slot(p, w), w);
  }

  /** Page `p` lies in the grid window at `b` exactly when `b` is its slot's base. */
  lemma InSlot(p: nat, b: nat, w: nat)
    requires w > 0 && b % w == 0
    ensures b <= p < b + w <==> Slot(p, w) * w == b
  {
    SlotBounds(p, w);
    if b <= p < b + w {
      DivMod(b, w);
      DivUnique(p, w, b / w, p - b);
    }
  }

  /** First fit lands on the grid. */
  lemma TookOnGrid(total: nat, w: nat, s: Pages, base: nat)
    requires 0 < w <= total && Gridded(total, w, s) && FirstFit(s.refs, base, w)
    ensures base % w == 0 && base + w <= total - w && base !in s.live
  {
    assert s.refs[base + w - 1] == 0;
    if base > 0 {
      var q := base - 1;
      SlotBounds(q, w);
      var b := Slot(q, w) * w;
      assert b in s.live;
      InSlot(base, b, w);
      assert s.refs[base] == 0;
      assert base == b + w;
      AddDiv(b, w);
    }
    InSlot(base, base, w);
    assert s.refs[base] == 0;
  }

  lemma TookKeeps(total: nat, w: nat, s: Pages, base: nat)
    requires 0 < w <= total && Gridded(total, w, s) && FirstFit(s.refs, base, w)
    ensures Gridded(total, w, Pages(TakeRefs(s.refs, base, w), s.live + {base}))
  {
    TookOnGrid(total, w, s, base);
    forall p: nat | p < total
      ensures TakeRefs(s.refs, base, w)[p] == if total - w <= p || Slot(p, w) * w in s.live + {base} then 1 else 0
    {
      InSlot(p, base, w);
    }
  }

  lemma GaveKeeps(total: nat, w: nat, s: Pages, base: nat)
    requires 0 < w <= total && Gridded(total, w, s) && base in s.live
    ensures Gridded(total, w, Pages(DropRefs(s.refs, base, w), s.live - {base}))
  {
    forall p: nat | p < total
      ensures DropRefs(s.refs, base, w)[p] == if total - w <= p || Slot(p, w) * w in s.live - {base} then 1 else 0
    {
      InSlot(p, base, w);
    }
  }

  /** After any history, live segments sit on the grid below the anchor. */
  lemma {:induction false} HistoryGridded(total: nat, w: nat, ops: seq<PoolOp>)
    requires 0 < w <= total && After(total, w, ops).Some?
    ensures Gridded(total, w, After(total, w, ops).value)
    decreases |ops|
  {
    if ops != [] {
      var prior, op := ops[..|ops| - 1], ops[|ops| - 1];
      HistoryGridded(total, w, prior);
      var s := After(total, w, prior).value;
      match op
      case Took(base) => TookKeeps(total, w, s, base);
      case Gave(base) => GaveKeeps(total, w, s, base);
    }
  }

  // ---- counting slots --------------------------------------------------------------------------------

  function Grid(k: nat, w: nat): (r: set<nat>) {
    if k == 0 then {} else Grid(k - 1, w) + {(k - 1) * w}
  }

  lemma {:induction false} GridIs(k: nat, w: nat)
    requires w > 0
    ensures |Grid(k, w)| == k
    ensures forall b :: b in Grid(k, w) ==> b % w == 0 && b / w < k
    ensures forall j: nat :: j < k ==> j * w in Grid(k, w)
  {
    if k > 0 {
      GridIs(k - 1, w);
      MulDiv(k - 1, w);
    }
  }

  lemma GridHas(k: nat, w: nat, j: nat)
    requires w > 0 && j < k
    ensures j * w in Grid(k, w)
  {
    GridIs(k, w);
  }

  lemma InGrid(total: nat, w: nat, b: nat)
    requires 0 < w <= total && b % w == 0 && b + w <= total - w
    ensures b in Grid(Cap(total, w), w)
  {
    hide Cap, Grid;
    BelowAnchor(total, w, b);
    GridHas(Cap(total, w), w, b / w);
    DivMod(b, w);
  }

  lemma LiveInGrid(total: nat, w: nat, s: Pages)
    requires 0 < w <= total && Gridded(total, w, s)
    ensures s.live <= Grid(Cap(total, w), w)
  {
    hide Cap, Grid;
    forall b | b in s.live
      ensures b in Grid(Cap(total, w), w)
    {
      InGrid(total, w, b);
    }
  }

  /** A window base below the anchor has its slot below the cap. */
  lemma BelowAnchor(total: nat, w: nat, b: nat)
    requires 0 < w <= total && b + w <= total - w
    ensures b / w < Cap(total, w)
  {
    AddDiv(b, w);
    DivMono(b + w, total - w, w);
  }

  lemma SubsetSize(a: set<nat>, b: set<nat>)
    requires a <= b
    ensures |a| <= |b| && (|a| == |b| ==> a == b)
  {
    assert b == a + (b - a);
    assert |b| == |a| + |b - a|;
  }

  /** On the grid a window is free exactly when fewer than the cap are live. */
  lemma GridFree(total: nat, w: nat, s: Pages)
    requires 0 < w <= total && Gridded(total, w, s)
    ensures |s.live| <= Cap(total, w)
    ensures (exists base :: AllZero(s.refs, base, w)) <==> |s.live| < Cap(total, w)
  {
    var cap := Cap(total, w);
    LiveInGrid(total, w, s);
    GridIs(cap, w);
    SubsetSize(s.live, Grid(cap, w));
    hide Cap, Grid, Gridded;
    if |s.live| < cap {
      assert !(Grid(cap, w) <= s.live) by {
        if Grid(cap, w) <= s.live {
          SubsetSize(Grid(cap, w), s.live);
        }
      }
      var b :| b in Grid(cap, w) && b !in s.live;
      FreeSlot(total, w, s, b);
    }
    if base :| AllZero(s.refs, base, w) {
      TakenSlot(total, w, s, base);
    }
  }

  /** A window is free exactly when fewer than the cap are live.  `Pool.Alloc` succeeds exactly
      when a window is free, so equal windows never fragment the pool. */
  lemma NeverFragments(total: nat, w: nat, ops: seq<PoolOp>)
    requires 0 < w <= total && After(total, w, ops).Some?
    ensures var s := After(total, w, ops).value;
            && |s.live| <= Cap(total, w)
            && ((exists base :: AllZero(s.refs, base, w)) <==> |s.live| < Cap(total, w))
  {
    HistoryGridded(total, w, ops);
    GridFree(total, w, After(total, w, ops).value);
  }

  lemma FreeSlot(total: nat, w: nat, s: Pages, b: nat)
    requires 0 < w <= total && Gridded(total, w, s) && b !in s.live && b % w == 0 && b / w < Cap(total, w)
    ensures AllZero(s.refs, b, w)
  {
    DivMod(b, w);
    DivMod(total - w, w);
    MulStep(b / w, Cap(total, w), w);
    hide Cap, Slot;
    assert b + w <= total - w;
    forall p | b <= p < b + w
      ensures s.refs[p] == 0
    {
      InSlot(p, b, w);
    }
  }

  lemma TakenSlot(total: nat, w: nat, s: Pages, base: nat)
    requires 0 < w <= total && Gridded(total, w, s) && AllZero(s.refs, base, w)
    ensures |s.live| < Cap(total, w)
  {
    var cap := Cap(total, w);
    assert s.refs[base] == 0 && s.refs[base + w - 1] == 0;
    assert base + w <= total - w;
    BelowAnchor(total, w, base);
    GridIs(cap, w);
    LiveInGrid(total, w, s);
    assert Slot(base, w) * w in Grid(cap, w) && Slot(base, w) * w !in s.live;
    SubsetSize(s.live, Grid(cap, w));
    hide Cap, Grid, Slot;
  }

  // ---- the pool itself ---------------------------------------------------------------------------------

  /** The history describes the pool. */
  ghost predicate Describes(total: nat, w: nat, ops: seq<PoolOp>, refs: seq<nat>)
    requires 0 < w <= total
  {
    After(total, w, ops).Some? && After(total, w, ops).value.refs == refs
  }

  ghost function Live(total: nat, w: nat, ops: seq<PoolOp>): set<nat>
    requires 0 < w <= total && After(total, w, ops).Some?
  {
    After(total, w, ops).value.live
  }

  /** A new pool with the anchor taken from its end: the empty history. */
  method Anchored(total: nat, w: nat) returns (pool: Pool)
    requires 0 < w <= total
    ensures fresh(pool) && fresh(pool.refs) && pool.Valid() && Describes(total, w, [], pool.refs[..])
  {
    pool := new Pool(total);
    ghost var zeros := pool.refs[..];
    assert AllZero(zeros, 0, w);
    var base := pool.AllocFromEnd(w);
    assert base.value == total - w;
  }

  /** A segment from the pool: there is one exactly when fewer than the cap are live. */
  method TakeWindow(pool: Pool, w: nat, ghost ops: seq<PoolOp>) returns (r: Option<nat>, ghost after: seq<PoolOp>)
    requires pool.Valid() && 0 < w <= pool.refs.Length && Describes(pool.refs.Length, w, ops, pool.refs[..])
    modifies pool, pool.refs
    ensures pool.Valid() && Describes(pool.refs.Length, w, after, pool.refs[..])
    ensures after == if r.Some? then ops + [Took(r.value)] else ops
    ensures r.Some? <==> |Live(pool.refs.Length, w, ops)| < Cap(pool.refs.Length, w)
    ensures r.Some? ==> r.value !in Live(pool.refs.Length, w, ops)
  {
    ghost var total, refs := pool.refs.Length, pool.refs[..];
    NeverFragments(total, w, ops);
    HistoryGridded(total, w, ops);
    r := pool.Alloc(w);
    after := ops;
    if r.Some? {
      after := ops + [Took(r.value)];
      assert after[..|ops|] == ops;
      TookOnGrid(total, w, After(total, w, ops).value, r.value);
    }
  }

  /** A live segment goes back. */
  method GiveWindow(pool: Pool, w: nat, base: nat, ghost ops: seq<PoolOp>) returns (ghost after: seq<PoolOp>)
    requires pool.Valid() && 0 < w <= pool.refs.Length && Describes(pool.refs.Length, w, ops, pool.refs[..])
    requires base in Live(pool.refs.Length, w, ops)
    modifies pool, pool.refs
    ensures pool.Valid() && Describes(pool.refs.Length, w, after, pool.refs[..]) && after == ops + [Gave(base)]
  {
    ghost var total := pool.refs.Length;
    HistoryGridded(total, w, ops);
    LiveHeld(total, w, After(total, w, ops).value, base);
    pool.Drop(base, w);
    after := ops + [Gave(base)];
    assert after[..|ops|] == ops;
  }

  lemma LiveHeld(total: nat, w: nat, s: Pages, base: nat)
    requires 0 < w <= total && Gridded(total, w, s) && base in s.live
    ensures AllHeld(s.refs, base, w)
  {
    forall p | base <= p < base + w
      ensures s.refs[p] >= 1
    {
      InSlot(p, base, w);
    }
  }

  // ---- the pool size ---------------------------------------------------------------------------------

  /** Budget blocks (all layers) to executor pages (per layer); refused below one window. */
  function SchedKvPages(budgetBlocks: nat, pp: nat, nLayer: nat): Option<nat> {
    if budgetBlocks < pp then None else Some(budgetBlocks * nLayer)
  }

  /** The conversion succeeds exactly when the pool holds a window, so the executor's own check
      cannot fail after it. */
  lemma PoolHoldsWindow(budgetBlocks: nat, pp: nat, nLayer: nat)
    requires nLayer > 0
    ensures SchedKvPages(budgetBlocks, pp, nLayer).Some? <==> budgetBlocks * nLayer >= nLayer * pp
    ensures SchedKvPages(budgetBlocks, pp, nLayer).Some? ==>
              SchedKvPages(budgetBlocks, pp, nLayer).value == budgetBlocks * nLayer >= nLayer * pp
  {
    if budgetBlocks < pp {
      assert (pp - budgetBlocks) * nLayer > 0;
      assert pp * nLayer == budgetBlocks * nLayer + (pp - budgetBlocks) * nLayer;
    } else {
      assert budgetBlocks * nLayer == pp * nLayer + (budgetBlocks - pp) * nLayer;
    }
  }
}
