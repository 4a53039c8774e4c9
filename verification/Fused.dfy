/** The fused decode kernels' plan table: tiles, partial segments and the gate that decides
    whether the feed-forward kernels may be merged. */
module Fused {
  import opened Requests
  import opened Arith
  import opened Matrix
  import Launches

  const TILE: nat := 256

  function CeilDiv(a: nat, b: nat): nat
    requires b > 0
  {
    (a + b - 1) / b
  }

  lemma AtMostOne(a: nat, b: nat)
    ensures a <= 1 ==> a * b <= b
  {
  }

  lemma CeilDivCovers(a: nat, b: nat)
    requires b > 0
    ensures a <= CeilDiv(a, b) * b < a + b
    ensures a > 0 ==> CeilDiv(a, b) > 0
  {
    DivMod(a + b - 1, b);
    if a > 0 {
      DivMono(b, a + b - 1, b);
      MulDiv(1, b);
    }
  }

  /** One matrix-vector plan: `n` output columns, reduction length `k`. */
  datatype Plan = Plan(n: nat, k: nat) {
    /** Column tiles. */
    function Ncols(): (r: nat)
      ensures r > 0 && n <= r * TILE
    {
      CeilDivCovers(n, TILE);
      if CeilDiv(n, TILE) > 1 then CeilDiv(n, TILE) else 1
    }

    /** Slabs of the reduction. */
    function Nslabs(): (r: nat)
      ensures 1 <= r && (k >= 32 ==> r <= k / 32) && (k < 32 ==> r == 1)
    {
      var target := if 2 * n < k then 192 else 96;
      var most := if k / 32 > 1 then k / 32 else 1;
      var want := CeilDiv(target, Ncols());
      if want < 1 then 1 else if want > most then most else want
    }

    /** The tiles cover the columns, and one fewer would not, but there is always one. */
    lemma NcolsLeast()
      ensures (Ncols() - 1) * 256 < n <= Ncols() * 256 || Ncols() == 1
    {
      CeilDivCovers(n, TILE);
    }

    /** Slabs are added until the blocks reach the target, 192 for a reduction more than twice as
        long as the output and 96 otherwise, as long as each slab has 32 terms. */
    lemma NslabsFill()
      ensures var target := if 2 * n < k then 192 else 96;
              && (Nslabs() * Ncols() >= target || Nslabs() == 1 || (Nslabs() + 1) * 32 > k)
              && (Nslabs() == 1 || ((Nslabs() - 1) * Ncols() < target && Nslabs() * 32 <= k))
              && (k >= 64 && Ncols() < target ==> Nslabs() > 1)
    {
      var target := if 2 * n < k then 192 else 96;
      var c, want := Ncols(), CeilDiv(target, Ncols());
      CeilDivCovers(target, c);
      DivMod(k, 32);
      if Nslabs() > 1 {
        assert Nslabs() <= want;
        MulMono(Nslabs() - 1, want - 1, c);
        assert (want - 1) * c == want * c - c;
      }
      AtMostOne(want, c);
    }

    /** Length of a slab, the last one possibly shorter. */
    function SlabK(): nat {
      CeilDiv(k, Nslabs())
    }

    function Blocks(): (r: nat) {
      Ncols() * Nslabs()
    }

    /** Entries of the plan's partials. */
    function Entries(): nat {
      Nslabs() * n
    }
  }

  /** The split step's kernel pair divides its work as the fused plans do. */
  lemma PairShape(n: nat, k: nat)
    ensures Launches.Shape(n, k) == (Plan(n, k).Ncols(), Plan(n, k).Nslabs())
  {
  }

  // ---- tiles of one launch ---------------------------------------------------------------------------

  /** First block of plan `i` of a launch. */
  function Offset(ps: seq<Plan>, i: nat): nat
    requires i <= |ps|
  {
    if i == 0 then 0 else Offset(ps, i - 1) + ps[i - 1].Blocks()
  }

  datatype Tile = Tile(plan: nat, col: nat, slab: nat)

  predicate TileOk(ps: seq<Plan>, t: Tile) {
    t.plan < |ps| && t.col < ps[t.plan].Ncols() && t.slab < ps[t.plan].Nslabs()
  }

  function BlockOf(ps: seq<Plan>, t: Tile): nat
    requires TileOk(ps, t)
  {
    Offset(ps, t.plan) + At(t.col, ps[t.plan].Nslabs(), t.slab)
  }

  lemma {:induction false} OffsetMono(ps: seq<Plan>, i: nat, j: nat)
    requires i <= j <= |ps|
    ensures Offset(ps, i) <= Offset(ps, j)
  {
    if i < j {
      OffsetMono(ps, i, j - 1);
    }
  }

  /** The kernel's scan over the table's offsets. */
  method FindPlan(ps: seq<Plan>, offs: seq<nat>, bx: nat) returns (pl: nat)
    requires |ps| == |offs| > 0 && bx < Offset(ps, |ps|)
    requires forall i :: 0 <= i < |ps| ==> offs[i] == Offset(ps, i)
    ensures pl < |ps| && Offset(ps, pl) <= bx < Offset(ps, pl + 1)
  {
    pl := 0;
    while pl + 1 < |ps| && bx >= offs[pl + 1]
      invariant pl < |ps| && Offset(ps, pl) <= bx
    {
      pl := pl + 1;
    }
  }

  /** The column tile and slab of a block's number within its plan. */
  function Split(pl: nat, local: nat, nslabs: nat): Tile
    requires nslabs > 0
  {
    Tile(pl, local / nslabs, local % nslabs)
  }

  lemma LocalTile(ps: seq<Plan>, pl: nat, bx: nat)
    requires pl < |ps| && Offset(ps, pl) <= bx < Offset(ps, pl + 1)
    ensures var t := Split(pl, bx - Offset(ps, pl), ps[pl].Nslabs());
            TileOk(ps, t) && BlockOf(ps, t) == bx
  {
    hide Plan.Ncols, Plan.Nslabs;
    assert Offset(ps, pl + 1) == Offset(ps, pl) + ps[pl].Blocks();
    AtSplit(bx - Offset(ps, pl), ps[pl].Ncols(), ps[pl].Nslabs());
  }

  /** A block decodes to one tile, and that tile is its own. */
  method DecodeBlock(ps: seq<Plan>, offs: seq<nat>, bx: nat) returns (t: Tile)
    requires |ps| == |offs| > 0 && bx < Offset(ps, |ps|)
    requires forall i :: 0 <= i < |ps| ==> offs[i] == Offset(ps, i)
    ensures TileOk(ps, t) && BlockOf(ps, t) == bx
    ensures forall u :: TileOk(ps, u) && BlockOf(ps, u) == bx ==> u == t
  {
    hide BlockOf, TileOk, Plan.Nslabs, Plan.Ncols, Split;
    var pl := FindPlan(ps, offs, bx);
    LocalTile(ps, pl, bx);
    t := Split(pl, bx - offs[pl], ps[pl].Nslabs());
    OnlyTile(ps, t);
  }

  lemma OnlyTile(ps: seq<Plan>, t: Tile)
    requires TileOk(ps, t)
    ensures forall u :: TileOk(ps, u) && BlockOf(ps, u) == BlockOf(ps, t) ==> u == t
  {
    hide BlockOf, TileOk;
    forall u | TileOk(ps, u) && BlockOf(ps, u) == BlockOf(ps, t)
      ensures u == t
    {
      BlocksApart(ps, t, u);
    }
  }

  lemma BlockInPlan(ps: seq<Plan>, t: Tile)
    requires TileOk(ps, t)
    ensures Offset(ps, t.plan) <= BlockOf(ps, t) < Offset(ps, t.plan + 1) <= Offset(ps, |ps|)
  {
    AtBound(t.col, ps[t.plan].Ncols(), ps[t.plan].Nslabs(), t.slab);
    OffsetMono(ps, t.plan + 1, |ps|);
  }

  /** No two tiles share a block, so every tile of every plan is run exactly once. */
  lemma BlocksApart(ps: seq<Plan>, t: Tile, u: Tile)
    requires TileOk(ps, t) && TileOk(ps, u)
    ensures BlockOf(ps, t) < Offset(ps, |ps|)
    ensures BlockOf(ps, t) == BlockOf(ps, u) ==> t == u
  {
    BlockInPlan(ps, t);
    BlockInPlan(ps, u);
    if t.plan < u.plan {
      OffsetMono(ps, t.plan + 1, u.plan);
    } else if u.plan < t.plan {
      OffsetMono(ps, u.plan + 1, t.plan);
    } else if BlockOf(ps, t) == BlockOf(ps, u) {
      AtUnique(t.col, t.slab, u.col, u.slab, ps[t.plan].Nslabs());
    }
  }

  /** Thread `tid` of a column tile computes column `col * 256 + tid`, if there is one. */
  predicate Computes(p: Plan, t: Tile, tid: nat, c: nat) {
    tid < TILE && c < p.n && c == At(t.col, TILE, tid)
  }

  /** Each column of each slab is computed by exactly one thread of exactly one block. */
  lemma ColumnsExact(ps: seq<Plan>, pl: nat, c: nat, slab: nat) returns (t: Tile, tid: nat)
    requires pl < |ps| && c < ps[pl].n && slab < ps[pl].Nslabs()
    ensures t.plan == pl && t.slab == slab && TileOk(ps, t) && Computes(ps[pl], t, tid, c)
    ensures forall u: Tile, v: nat :: TileOk(ps, u) && u.plan == pl && u.slab == slab && Computes(ps[pl], u, v, c) ==> u == t && v == tid
  {
    AtSplit(c, ps[pl].Ncols(), TILE);
    t, tid := Tile(pl, c / TILE, slab), c % TILE;
    forall u: Tile, v: nat | TileOk(ps, u) && u.plan == pl && u.slab == slab && Computes(ps[pl], u, v, c)
      ensures u == t && v == tid
    {
      AtUnique(u.col, v, t.col, tid, TILE);
    }
  }

  // ---- partial segments ------------------------------------------------------------------------------

  /** First entry of plan `i`'s segment in the shared partials buffer. */
  function Segment(ps: seq<Plan>, i: nat): nat
    requires i <= |ps|
  {
    if i == 0 then 0 else Segment(ps, i - 1) + ps[i - 1].Entries()
  }

  lemma {:induction false} SegmentMono(ps: seq<Plan>, i: nat, j: nat)
    requires i <= j <= |ps|
    ensures Segment(ps, i) <= Segment(ps, j)
  {
    if i < j {
      SegmentMono(ps, i, j - 1);
    }
  }

  /** Where the partial sum of column `c` in slab `s` is written. */
  function Address(ps: seq<Plan>, i: nat, s: nat, c: nat): nat
    requires i < |ps|
  {
    Segment(ps, i) + At(s, ps[i].n, c)
  }

  lemma AddressBound(ps: seq<Plan>, i: nat, s: nat, c: nat)
    requires i < |ps| && s < ps[i].Nslabs() && c < ps[i].n
    ensures Segment(ps, i) <= Address(ps, i, s, c) < Segment(ps, i + 1) <= Segment(ps, |ps|)
  {
    AtBound(s, ps[i].Nslabs(), ps[i].n, c);
    SegmentMono(ps, i + 1, |ps|);
  }

  /** Partial sums never collide, within a plan or across plans. */
  lemma AddressesApart(ps: seq<Plan>, i: nat, s: nat, c: nat, j: nat, r: nat, d: nat)
    requires i < |ps| && s < ps[i].Nslabs() && c < ps[i].n
    requires j < |ps| && r < ps[j].Nslabs() && d < ps[j].n
    requires Address(ps, i, s, c) == Address(ps, j, r, d)
    ensures i == j && s == r && c == d
  {
    AddressBound(ps, i, s, c);
    AddressBound(ps, j, r, d);
    if i < j {
      SegmentMono(ps, i + 1, j);
    } else if j < i {
      SegmentMono(ps, j + 1, i);
    } else {
      AtUnique(s, c, r, d, ps[i].n);
    }
  }

  // ---- the merge gate ----------------------------------------------------------------------------------

  /** `[ks, ke)` of slab `s`. */
  function Lo(slabK: nat, s: nat): nat {
    s * slabK
  }

  function Hi(slabK: nat, k: nat, s: nat): nat {
    if s * slabK + slabK < k then s * slabK + slabK else k
  }

  /** The slab's range lies in the 256-wide stripe its own block has written. */
  predicate InStripe(slabK: nat, k: nat, s: nat)
    requires 0 < slabK <= TILE
  {
    var stripe := s / (TILE / slabK) * TILE;
    stripe <= Lo(slabK, s) && Hi(slabK, k, s) <= stripe + TILE
  }

  /** Every slab reads only its own block's stripe, and the stripes of all slabs cover the whole
      reduction. */
  ghost predicate Mergeable(k: nat, nslabs: nat, slabK: nat) {
    && 0 < slabK <= TILE
    && (forall s :: 0 <= s < nslabs ==> InStripe(slabK, k, s))
    && forall i :: 0 <= i < k ==> HasSlab(nslabs, TILE / slabK, i / TILE)
  }

  /** Some slab belongs to the stripe, `per` slabs making one. */
  ghost predicate HasSlab(nslabs: nat, per: nat, stripe: nat)
    requires per > 0
  {
    exists s :: 0 <= s < nslabs && s / per == stripe
  }

  predicate Divides(slabK: nat) {
    0 < slabK <= TILE && TILE % slabK == 0
  }

  /** Dividing 256 is all the per-slab test asks for: its loop never rejects anything. */
  lemma SlabsInStripes(slabK: nat, k: nat, s: nat)
    requires Divides(slabK)
    ensures InStripe(slabK, k, s)
  {
    var per := TILE / slabK;
    DivMod(TILE, slabK);
    assert per * slabK == TILE;
    DivMod(s, per);
    var q, r := s / per, s % per;
    assert s * slabK == q * (per * slabK) + r * slabK;
    MulStep(r, per, slabK);
  }

  /** The gate as the loader evaluates it. */
  method MergeGate(k: nat, nslabs: nat, slabK: nat) returns (ok: bool)
    requires 0 < slabK
    ensures ok <==> Divides(slabK) && nslabs / (TILE / slabK) * TILE >= k
  {
    ok := slabK <= TILE && TILE % slabK == 0;
    if ok {
      var per := TILE / slabK;
      if nslabs / per * TILE >= k {
        var s := 0;
        while s < nslabs
          invariant s <= nslabs && ok
        {
          SlabsInStripes(slabK, k, s);
          var lo := s / per * TILE;
          if Lo(slabK, s) < lo || Hi(slabK, k, s) > lo + TILE {
            ok := false;
            break;
          }
          s := s + 1;
        }
      } else {
        ok := false;
      }
    }
  }

  /** An accepted gate is a valid merge. */
  lemma GateIsSound(k: nat, nslabs: nat, slabK: nat)
    requires Divides(slabK) && nslabs / (TILE / slabK) * TILE >= k
    ensures Mergeable(k, nslabs, slabK)
  {
    hide InStripe, HasSlab;
    var per := TILE / slabK;
    forall s | 0 <= s < nslabs
      ensures InStripe(slabK, k, s)
    {
      SlabsInStripes(slabK, k, s);
    }
    DivMod(TILE, slabK);
    forall i | 0 <= i < k
      ensures HasSlab(nslabs, per, i / TILE)
    {
      StripeHasSlab(k, nslabs, per, i);
    }
  }

  lemma StripeHasSlab(k: nat, nslabs: nat, per: nat, i: nat)
    requires per > 0 && nslabs / per * TILE >= k && i < k
    ensures i / TILE * per < nslabs && i / TILE * per / per == i / TILE
    ensures HasSlab(nslabs, per, i / TILE)
  {
    DivBelow(i, TILE, nslabs / per);
    MulStep(i / TILE, nslabs / per, per);
    DivMod(nslabs, per);
    MulDiv(i / TILE, per);
  }

  /** The slabs of a plan partition its reduction: every index lies in exactly one slab. */
  lemma SlabsPartition(p: Plan, i: nat, s: nat)
    requires i < p.k
    ensures p.SlabK() > 0 && i / p.SlabK() < p.Nslabs()
    ensures Lo(p.SlabK(), s) <= i < Hi(p.SlabK(), p.k, s) <==> s == i / p.SlabK()
  {
    hide Plan.Nslabs, CeilDiv;
    CeilDivCovers(p.k, p.Nslabs());
    SlabOf(p.k, p.Nslabs(), p.SlabK(), i, s);
  }

  lemma SlabOf(k: nat, nslabs: nat, w: nat, i: nat, s: nat)
    requires w > 0 && k <= w * nslabs && i < k
    ensures i / w < nslabs && (Lo(w, s) <= i < Hi(w, k, s) <==> s == i / w)
  {
    DivMod(i, w);
    DivBelow(i, w, nslabs);
    var q := i / w;
    if s < q {
      MulStep(s, q, w);
    } else if q < s {
      MulStep(q, s, w);
    }
  }

  // ---- the plan table ----------------------------------------------------------------------------------

  /** The device addresses of a projection: its input activations and its weights. */
  datatype Operands = Operands(a: nat, b: nat)

  /** The operands of one layer's seven projections, in the order of the rows. */
  type LayerOperands = w: seq<Operands> | |w| == 7 witness seq(7, _ => Operands(0, 0))

  /** A row of the device table: the operands, the plan, where its partials start, and its first
      block in the launch it belongs to. */
  datatype PlanRow = PlanRow(op: Operands, plan: Plan, partials: nat, colOff: nat)

  /** The shapes of one layer: q, k, v, o, gate, up, down. */
  type LayerPlans = ps: seq<Plan> | |ps| == 7 witness seq(7, _ => Plan(0, 0))

  datatype Geom = Geom(gridQkv: seq<nat>, gridO: seq<nat>, gridGu: seq<nat>, gridGuP2: nat, rows: seq<PlanRow>, partials: nat)

  /** All eight segments, the language head's last. */
  function Segments(ps: LayerPlans, lm: Plan): (r: seq<Plan>)
    ensures |r| == 8
  {
    ps + [lm]
  }

  /** The launch a row belongs to, and its place in it. */
  function LaunchOf(ps: LayerPlans, kind: nat): (r: (seq<Plan>, nat))
    requires kind < 7
    ensures r.1 < |r.0| && r.0[r.1] == ps[kind]
  {
    if kind < 3 then (ps[0..3], kind)
    else if kind == 3 then ([ps[3]], 0)
    else if kind < 6 then (ps[4..6], kind - 4)
    else ([ps[6]], 0)
  }

  /** The row of one plan of one layer. */
  function RowOf(ps: LayerPlans, lm: Plan, w: LayerOperands, kind: nat): PlanRow
    requires kind < 7
  {
    PlanRow(w[kind], ps[kind], Segment(Segments(ps, lm), kind), Offset(LaunchOf(ps, kind).0, LaunchOf(ps, kind).1))
  }

  /** The table of the first `l` layers, seven rows each. */
  ghost predicate TableTo(ps: LayerPlans, lm: Plan, ops: seq<LayerOperands>, rows: seq<PlanRow>, l: nat)
    requires l <= |ops|
  {
    |rows| == 7 * l && forall i, kind :: 0 <= i < l && 0 <= kind < 7 ==> rows[7 * i + kind] == RowOf(ps, lm, ops[i], kind)
  }

  lemma TableMore(ps: LayerPlans, lm: Plan, ops: seq<LayerOperands>, rows: seq<PlanRow>, l: nat, more: seq<PlanRow>)
    requires l < |ops| && TableTo(ps, lm, ops, rows, l)
    requires |more| == 7 && forall kind :: 0 <= kind < 7 ==> more[kind] == RowOf(ps, lm, ops[l], kind)
    ensures TableTo(ps, lm, ops, rows + more, l + 1)
  {
    hide RowOf;
    forall i, kind | 0 <= i < l + 1 && 0 <= kind < 7
      ensures (rows + more)[7 * i + kind] == RowOf(ps, lm, ops[i], kind)
    {
      if i < l {
        assert rows[7 * i + kind] == RowOf(ps, lm, ops[i], kind);
      }
    }
  }

  /** The seven rows of a layer: block offsets relative to the launch each plan is in. */
  method LayerRows(ps: LayerPlans, ghost lm: Plan, w: LayerOperands, offs: seq<nat>) returns (rows: seq<PlanRow>)
    requires ps[4] == ps[5] && |offs| == 8 && forall i :: 0 <= i < 8 ==> offs[i] == Segment(Segments(ps, lm), i)
    ensures |rows| == 7 && forall kind :: 0 <= kind < 7 ==> rows[kind] == RowOf(ps, lm, w, kind)
  {
    LaunchOffsets(ps);
    hide Plan.Blocks, Segment, Offset;
    var bQ := ps[0].Blocks();
    var bK := bQ + ps[1].Blocks();
    var bG := ps[4].Blocks();
    rows := [PlanRow(w[0], ps[0], offs[0], 0), PlanRow(w[1], ps[1], offs[1], bQ), PlanRow(w[2], ps[2], offs[2], bK),
             PlanRow(w[3], ps[3], offs[3], 0), PlanRow(w[4], ps[4], offs[4], 0), PlanRow(w[5], ps[5], offs[5], bG),
             PlanRow(w[6], ps[6], offs[6], 0)];
  }

  ghost predicate GeomOk(ps: LayerPlans, lm: Plan, ops: seq<LayerOperands>, lmOp: Operands, g: Geom) {
    var nLayers := |ops|;
    && |g.rows| == 7 * nLayers + 1
    && TableTo(ps, lm, ops, g.rows[..7 * nLayers], nLayers)
    && g.rows[7 * nLayers] == PlanRow(lmOp, lm, Segment(Segments(ps, lm), 7), 0)
    && g.gridQkv == seq(nLayers, _ => Offset(ps[0..3], 3))
    && g.gridO == seq(nLayers, _ => Offset([ps[3]], 1))
    && g.gridGu == seq(nLayers, _ => Offset(ps[4..6], 2))
    && g.gridGuP2 == Offset([ps[6]], 1)
    && g.partials == Segment(Segments(ps, lm), 7) + lm.n
  }

  /** The loader, behind the merge gate.  All layers share the shapes of layer 0; gate and up
      share one shape.  Every row starts where its launch's decoding expects it and every grid
      is its launch's tile count. */
  method BuildPlans(ps: LayerPlans, lm: Plan, ops: seq<LayerOperands>, lmOp: Operands) returns (r: Option<Geom>)
    requires ps[4] == ps[5] && ps[6].k > 0
    ensures r.Some? <==> Divides(ps[6].SlabK()) && ps[6].Nslabs() / (TILE / ps[6].SlabK()) * TILE >= ps[6].k
    ensures r.Some? ==> GeomOk(ps, lm, ops, lmOp, r.value)
  {
    CeilDivCovers(ps[6].k, ps[6].Nslabs());
    var ok := MergeGate(ps[6].k, ps[6].Nslabs(), ps[6].SlabK());
    if !ok {
      return None;
    }
    var g := BuildTable(ps, lm, ops, lmOp);
    r := Some(g);
  }

  method BuildTable(ps: LayerPlans, lm: Plan, ops: seq<LayerOperands>, lmOp: Operands) returns (g: Geom)
    requires ps[4] == ps[5]
    ensures GeomOk(ps, lm, ops, lmOp, g)
  {
    var offs := SegmentOffsets(ps, lm);
    LaunchOffsets(ps);
    var bV := ps[0].Blocks() + ps[1].Blocks() + ps[2].Blocks();
    var bO := ps[3].Blocks();
    var bU := ps[4].Blocks() + ps[4].Blocks();
    var gridQkv, gridO, gridGu, rows := [], [], [], [];
    var l := 0;
    while l < |ops|
      invariant l <= |ops| && TableTo(ps, lm, ops, rows, l)
      invariant gridQkv == seq(l, _ => bV) && gridO == seq(l, _ => bO) && gridGu == seq(l, _ => bU)
    {
      var more := LayerRows(ps, lm, ops[l], offs);
      TableMore(ps, lm, ops, rows, l, more);
      rows := rows + more;
      gridQkv, gridO, gridGu := gridQkv + [bV], gridO + [bO], gridGu + [bU];
      l := l + 1;
    }
    ghost var table := rows;
    rows := rows + [PlanRow(lmOp, lm, offs[7], 0)];
    assert rows[..7 * |ops|] == table;
    g := Geom(gridQkv, gridO, gridGu, ps[6].Blocks(), rows, offs[7] + lm.n);
  }

  /** The cumulative segment offsets. */
  method SegmentOffsets(ps: LayerPlans, lm: Plan) returns (offs: seq<nat>)
    ensures |offs| == 8 && forall i :: 0 <= i < 8 ==> offs[i] == Segment(Segments(ps, lm), i)
  {
    offs := [0];
    var i := 0;
    while i < 7
      invariant i <= 7 && |offs| == i + 1
      invariant forall j :: 0 <= j <= i ==> offs[j] == Segment(Segments(ps, lm), j)
    {
      offs := offs + [offs[i] + ps[i].Entries()];
      i := i + 1;
    }
  }

  lemma LaunchOffsets(ps: LayerPlans)
    requires ps[4] == ps[5]
    ensures Offset(ps[0..3], 0) == 0 && Offset(ps[0..3], 1) == ps[0].Blocks()
    ensures Offset(ps[0..3], 2) == ps[0].Blocks() + ps[1].Blocks()
    ensures Offset(ps[0..3], 3) == ps[0].Blocks() + ps[1].Blocks() + ps[2].Blocks()
    ensures Offset([ps[3]], 0) == 0 && Offset([ps[3]], 1) == ps[3].Blocks()
    ensures Offset(ps[4..6], 0) == 0 && Offset(ps[4..6], 1) == ps[4].Blocks() && Offset(ps[4..6], 2) == ps[4].Blocks() + ps[4].Blocks()
    ensures Offset([ps[6]], 0) == 0 && Offset([ps[6]], 1) == ps[6].Blocks()
  {
    hide Plan.Blocks;
  }

  /** The buffer the loader allocates holds every plan's partials exactly when the language head
      has a single slab, which the loader only asserts in debug builds. */
  lemma PartialsFitIff(ps: LayerPlans, lm: Plan)
    requires lm.n > 0
    ensures (forall i, s, c :: 0 <= i < 8 && 0 <= s < Segments(ps, lm)[i].Nslabs() && 0 <= c < Segments(ps, lm)[i].n ==>
               Address(Segments(ps, lm), i, s, c) < Segment(Segments(ps, lm), 7) + lm.n)
       <==> lm.Nslabs() == 1
  {
    var all := Segments(ps, lm);
    hide Plan.Nslabs;
    if lm.Nslabs() == 1 {
      forall i, s, c | 0 <= i < 8 && 0 <= s < all[i].Nslabs() && 0 <= c < all[i].n
        ensures Address(all, i, s, c) < Segment(all, 7) + lm.n
      {
        AddressBound(all, i, s, c);
        if i < 7 {
          SegmentMono(all, i + 1, 7);
        } else {
          assert At(s, lm.n, c) == c;
        }
      }
    } else {
      SecondSlabOut(all, lm);
    }
  }

  lemma SecondSlabOut(all: seq<Plan>, lm: Plan)
    requires |all| == 8 && all[7] == lm && lm.n > 0 && lm.Nslabs() > 1
    ensures 0 <= 1 < all[7].Nslabs() && 0 <= 0 < all[7].n && Address(all, 7, 1, 0) >= Segment(all, 7) + lm.n
  {
    assert At(1, lm.n, 0) == lm.n;
  }
}
