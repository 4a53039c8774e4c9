/** Device KV memory: pages of `BLOCK` cells, layer runs, page-exact copies, and the three
    engine entry points that write it (one decode step, a prefill, a decode batch). */
module PagedKv {
  import opened Transformer

  const BLOCK: nat := 32

  /** One page: one layer's keys/values of `BLOCK` consecutive positions. */
  type Page = p: seq<KV> | |p| == BLOCK witness seq(BLOCK, _ => KV([], []))
  type Mem = seq<Page>

  function DivUp(n: nat): nat {
    (n + BLOCK - 1) / BLOCK
  }

  /** One `cudaMemcpy`: `n` pages from `from` in `src` to `to` in `dst`. */
  function Splice(dst: Mem, to: nat, src: Mem, from: nat, n: nat): (r: Mem)
    requires to + n <= |dst| && from + n <= |src|
    ensures |r| == |dst|
    ensures forall p :: 0 <= p < |dst| ==>
              r[p] == if to <= p < to + n then src[from + (p - to)] else dst[p]
  {
    dst[..to] + src[from..from + n] + dst[to + n..]
  }

  /** One request of a decode batch: its token, position, window length and segment base. */
  datatype Row = Row(token: Token, pos: nat, kvLen: nat, base: nat)

  /** The model on a device whose per-layer window is `pp` pages. */
  datatype Dev = Dev(m: Model, pp: nat) {

    /** Pages of the layers below `li`: `li * pp`, see `OffIsProduct`. */
    function Off(li: nat): nat {
      if li == 0 then 0 else Off(li - 1) + pp
    }

    lemma {:induction false} OffIsProduct(li: nat)
      ensures Off(li) == li * pp
    {
      if li > 0 {
        OffIsProduct(li - 1);
      }
    }

    lemma {:induction false} OffMono(l0: nat, l1: nat)
      requires l0 < l1
      ensures Off(l0) + pp <= Off(l1)
    {
      if l0 + 1 < l1 {
        OffMono(l0, l1 - 1);
      }
    }

    /** Pages of one request window. */
    function Window(): nat {
      Off(m.nLayer)
    }

    /** Physical page `j` of layer `li` in the window at `base` (the identity page table). */
    function PageOf(base: nat, li: nat, j: nat): nat {
      base + Off(li) + j
    }

    /** Page `p` is one of the first `n` pages of some layer run of the window at `base`. */
    ghost predicate InRun(base: nat, n: nat, p: nat) {
      exists li, j :: 0 <= li < m.nLayer && 0 <= j < n && p == PageOf(base, li, j)
    }

    predicate Fits(mem: Mem, base: nat) {
      base + Window() <= |mem|
    }

    lemma PageFits(base: nat, li: nat, j: nat)
      requires li < m.nLayer && j < pp
      ensures base <= PageOf(base, li, j) < base + Window()
    {
      OffMono(li, m.nLayer);
    }

    lemma PagesApart(base: nat, l0: nat, j0: nat, l1: nat, j1: nat)
      requires j0 < pp && j1 < pp && (l0 != l1 || j0 != j1)
      ensures PageOf(base, l0, j0) != PageOf(base, l1, j1)
    {
      if l0 < l1 {
        OffMono(l0, l1);
      } else if l1 < l0 {
        OffMono(l1, l0);
      }
    }

    lemma RunInWindow(base: nat, off: nat, n: nat, p: nat)
      requires off + n <= pp && InRun(base + off, n, p)
      ensures base <= p < base + Window()
    {
      var li, j :| 0 <= li < m.nLayer && 0 <= j < n && p == PageOf(base + off, li, j);
      PageFits(base, li, off + j);
    }

    /** The cell of position `t` in layer `li` of the window at `base`. */
    function Cell(mem: Mem, base: nat, li: nat, t: nat): KV
      requires Fits(mem, base) && li < m.nLayer && t < pp * BLOCK
    {
      PageFits(base, li, t / BLOCK);
      mem[PageOf(base, li, t / BLOCK)][t % BLOCK]
    }

    function SetCell(mem: Mem, base: nat, li: nat, t: nat, v: KV): (r: Mem)
      requires Fits(mem, base) && li < m.nLayer && t < pp * BLOCK
      ensures |r| == |mem|
    {
      PageFits(base, li, t / BLOCK);
      var p := PageOf(base, li, t / BLOCK);
      mem[p := mem[p][t % BLOCK := v]]
    }

    lemma SetCellAt(mem: Mem, base: nat, li: nat, t: nat, v: KV, l: nat, u: nat)
      requires Fits(mem, base) && li < m.nLayer && t < pp * BLOCK && l < m.nLayer && u < pp * BLOCK
      ensures Cell(SetCell(mem, base, li, t, v), base, l, u)
           == if l == li && u == t then v else Cell(mem, base, l, u)
    {
      PageFits(base, li, t / BLOCK);
      PageFits(base, l, u / BLOCK);
      if l != li || u / BLOCK != t / BLOCK {
        PagesApart(base, l, u / BLOCK, li, t / BLOCK);
      }
    }

    /** The attention window of layer `li`: cells `[0, n)`. */
    function View(mem: Mem, base: nat, li: nat, n: nat): (r: seq<KV>)
      requires Fits(mem, base) && li < m.nLayer && n <= pp * BLOCK
      ensures |r| == n
    {
      seq(n, t requires 0 <= t < n => Cell(mem, base, li, t))
    }

    /** Cells `[0, n)` of every layer of the window at `base` are those of a full forward
        over `toks`. */
    ghost predicate Holds(mem: Mem, base: nat, toks: seq<Token>, n: nat) {
      && Fits(mem, base)
      && n <= |toks| && n <= pp * BLOCK
      && forall li, t :: 0 <= li < m.nLayer && 0 <= t < n ==>
           Cell(mem, base, li, t) == KvAt(m, toks, li, t)
    }

    lemma HoldsPrefix(mem: Mem, base: nat, a: seq<Token>, b: seq<Token>, n: nat)
      requires Holds(mem, base, a, n) && n <= |b| && a[..n] == b[..n]
      ensures Holds(mem, base, b, n)
    {
      forall li, t | 0 <= li < m.nLayer && 0 <= t < n
        ensures Cell(mem, base, li, t) == KvAt(m, b, li, t)
      {
        assert a[..t + 1] == a[..n][..t + 1] == b[..t + 1];
        KvCausal(m, a, b, li, t);
      }
    }

    /** Only the pages actually covered by `n` positions matter. */
    lemma HoldsFrame(mem: Mem, mem': Mem, base: nat, toks: seq<Token>, n: nat)
      requires Holds(mem, base, toks, n) && |mem'| == |mem|
      requires forall p :: 0 <= p < |mem| && InRun(base, DivUp(n), p) ==> mem'[p] == mem[p]
      ensures Holds(mem', base, toks, n)
    {
      forall li, t | 0 <= li < m.nLayer && 0 <= t < n
        ensures Cell(mem', base, li, t) == KvAt(m, toks, li, t)
      {
        PageFits(base, li, t / BLOCK);
        assert t / BLOCK < DivUp(n);
        assert InRun(base, DivUp(n), PageOf(base, li, t / BLOCK));
        assert Cell(mem, base, li, t) == KvAt(m, toks, li, t);
      }
    }

    // ---- page-exact copies -------------------------------------------------------------

    /** `n` pages per layer at `base` lie inside a memory of `len` pages. */
    ghost predicate RunFits(len: nat, base: nat, n: nat) {
      n <= pp && forall li, j :: 0 <= li < m.nLayer && 0 <= j < n ==> PageOf(base, li, j) < len
    }

    lemma WindowRunFits(len: nat, base: nat, off: nat, n: nat)
      requires base + Window() <= len && off + n <= pp
      ensures RunFits(len, base + off, n)
    {
      var b := base + off;
      forall li, j | 0 <= li < m.nLayer && 0 <= j < n
        ensures PageOf(b, li, j) < len
      {
        PageFits(base, li, off + j);
      }
    }

    /** The per-layer copy loop after `li` layers: `n` pages per layer from the run at `sb`
        of `src` to the run at `db` of `dst`. */
    function Copied(dst: Mem, src: Mem, db: nat, sb: nat, n: nat, li: nat): (r: Mem)
      requires li <= m.nLayer && RunFits(|dst|, db, n) && RunFits(|src|, sb, n)
      ensures |r| == |dst|
    {
      if li == 0 || n == 0 then dst
      else
        var d := Copied(dst, src, db, sb, n, li - 1);
        var to, from := PageOf(db, li - 1, 0), PageOf(sb, li - 1, 0);
        assert PageOf(db, li - 1, n - 1) < |dst| && PageOf(sb, li - 1, n - 1) < |src|;
        Splice(d, to, src, from, n)
    }

    lemma {:induction false} CopiedAt(dst: Mem, src: Mem, db: nat, sb: nat, n: nat, li: nat)
      requires li <= m.nLayer && RunFits(|dst|, db, n) && RunFits(|src|, sb, n)
      ensures forall l, j :: 0 <= l < li && 0 <= j < n ==>
                Copied(dst, src, db, sb, n, li)[PageOf(db, l, j)] == src[PageOf(sb, l, j)]
      ensures forall p :: 0 <= p < |dst| && !InRun(db, n, p) ==>
                Copied(dst, src, db, sb, n, li)[p] == dst[p]
      decreases li
    {
      if li > 0 && n > 0 {
        var k := li - 1;
        CopiedAt(dst, src, db, sb, n, k);
        var d, r := Copied(dst, src, db, sb, n, k), Copied(dst, src, db, sb, n, li);
        forall l, j | 0 <= l < li && 0 <= j < n
          ensures r[PageOf(db, l, j)] == src[PageOf(sb, l, j)]
        {
          CopyStepIn(d, src, db, sb, n, k, l, j);
        }
        forall p | 0 <= p < |dst| && !InRun(db, n, p)
          ensures r[p] == dst[p]
        {
          CopyStepOut(d, src, db, sb, n, k, p);
        }
      }
    }

    lemma CopyStepIn(d: Mem, src: Mem, db: nat, sb: nat, n: nat, k: nat, l: nat, j: nat)
      requires l <= k < m.nLayer && j < n && RunFits(|d|, db, n) && RunFits(|src|, sb, n)
      requires l < k ==> d[PageOf(db, l, j)] == src[PageOf(sb, l, j)]
      ensures PageOf(db, k, 0) + n <= |d| && PageOf(sb, k, 0) + n <= |src|
      ensures Splice(d, PageOf(db, k, 0), src, PageOf(sb, k, 0), n)[PageOf(db, l, j)] == src[PageOf(sb, l, j)]
    {
      assert PageOf(db, k, n - 1) < |d| && PageOf(sb, k, n - 1) < |src|;
      if l < k {
        OffMono(l, k);
      } else {
        assert PageOf(db, l, j) == PageOf(db, k, 0) + j && PageOf(sb, l, j) == PageOf(sb, k, 0) + j;
      }
    }

    lemma CopyStepOut(d: Mem, src: Mem, db: nat, sb: nat, n: nat, k: nat, p: nat)
      requires k < m.nLayer && 0 < n && p < |d| && RunFits(|d|, db, n) && RunFits(|src|, sb, n)
      requires !InRun(db, n, p)
      ensures PageOf(db, k, 0) + n <= |d| && PageOf(sb, k, 0) + n <= |src|
      ensures Splice(d, PageOf(db, k, 0), src, PageOf(sb, k, 0), n)[p] == d[p]
    {
      assert PageOf(db, k, n - 1) < |d| && PageOf(sb, k, n - 1) < |src|;
      var to := PageOf(db, k, 0);
      assert p != PageOf(db, k, if to <= p < to + n then p - to else 0) || !(to <= p < to + n);
    }

    /** A copy into part of a window leaves every page outside the window alone. */
    lemma CopyElsewhere(dst: Mem, src: Mem, base: nat, off: nat, sb: nat, n: nat)
      requires off + n <= pp && RunFits(|dst|, base + off, n) && RunFits(|src|, sb, n)
      ensures forall p :: 0 <= p < |dst| && !(base <= p < base + Window()) ==>
                Copied(dst, src, base + off, sb, n, m.nLayer)[p] == dst[p]
    {
      var b := base + off;
      CopiedAt(dst, src, b, sb, n, m.nLayer);
      forall p | 0 <= p < |dst| && !(base <= p < base + Window())
        ensures !InRun(b, n, p)
      {
        if InRun(b, n, p) {
          RunInWindow(base, off, n, p);
        }
      }
    }

    /** Copying the covering pages of a coherent run makes the target coherent. */
    lemma CopyHolds(dst: Mem, src: Mem, db: nat, sb: nat, n: nat, toks: seq<Token>, len: nat)
      requires Holds(src, sb, toks, len) && Fits(dst, db)
      requires DivUp(len) <= n && RunFits(|dst|, db, n) && RunFits(|src|, sb, n)
      ensures Holds(Copied(dst, src, db, sb, n, m.nLayer), db, toks, len)
    {
      var r := Copied(dst, src, db, sb, n, m.nLayer);
      CopiedAt(dst, src, db, sb, n, m.nLayer);
      forall li, t | 0 <= li < m.nLayer && 0 <= t < len
        ensures Cell(r, db, li, t) == KvAt(m, toks, li, t)
      {
        PageFits(db, li, t / BLOCK);
        PageFits(sb, li, t / BLOCK);
        assert t / BLOCK < n;
        assert r[PageOf(db, li, t / BLOCK)] == src[PageOf(sb, li, t / BLOCK)];
        assert Cell(src, sb, li, t) == KvAt(m, toks, li, t);
      }
    }

    // ---- one decode step ---------------------------------------------------------------

    /** `step` after `li` layers: the memory and the residual.  Each layer writes the cell of
        `pos` first and then attends over `[0, kvLen)`. */
    function Stepped(mem: Mem, base: nat, tok: Token, pos: nat, kvLen: nat, li: nat): (r: (Mem, Vec))
      requires li <= m.nLayer && Fits(mem, base) && pos < pp * BLOCK && kvLen <= pp * BLOCK
      ensures |r.0| == |mem|
    {
      if li == 0 then (mem, m.embed(tok))
      else
        var (d, x) := Stepped(mem, base, tok, pos, kvLen, li - 1);
        var d' := SetCell(d, base, li - 1, pos, m.kv(li - 1, x, pos));
        (d', m.block(li - 1, x, pos, View(d', base, li - 1, kvLen)))
    }

    function Step(mem: Mem, base: nat, tok: Token, pos: nat, kvLen: nat): (r: (Mem, Vec))
      requires Fits(mem, base) && pos < pp * BLOCK && kvLen <= pp * BLOCK
      ensures |r.0| == |mem|
    {
      var (d, x) := Stepped(mem, base, tok, pos, kvLen, m.nLayer);
      (d, m.head(x))
    }

    lemma {:induction false} SteppedCell(mem: Mem, base: nat, tok: Token, pos: nat, kvLen: nat, li: nat,
                                         l: nat, t: nat)
      requires li <= m.nLayer && Fits(mem, base) && pos < pp * BLOCK && kvLen <= pp * BLOCK
      requires l < m.nLayer && t < pp * BLOCK && (l >= li || t != pos)
      ensures Cell(Stepped(mem, base, tok, pos, kvLen, li).0, base, l, t) == Cell(mem, base, l, t)
      decreases li
    {
      if li > 0 {
        var (d, x) := Stepped(mem, base, tok, pos, kvLen, li - 1);
        SteppedCell(mem, base, tok, pos, kvLen, li - 1, l, t);
        SetCellAt(d, base, li - 1, pos, m.kv(li - 1, x, pos), l, t);
      }
    }

    /** The heart of incremental decoding: over a coherent window the step reproduces the
        full forward, layer by layer. */
    lemma {:induction false} SteppedHidden(mem: Mem, base: nat, toks: seq<Token>, li: nat)
      requires |toks| > 0 && Holds(mem, base, toks, |toks| - 1) && |toks| <= pp * BLOCK && li <= m.nLayer
      ensures var pos := |toks| - 1; var r := Stepped(mem, base, toks[pos], pos, |toks|, li);
              && r.1 == Hidden(m, toks, li, pos)
              && forall l :: 0 <= l < li ==> Cell(r.0, base, l, pos) == KvAt(m, toks, l, pos)
      decreases li
    {
      if li > 0 {
        var pos, k := |toks| - 1, li - 1;
        SteppedHidden(mem, base, toks, k);
        var (d, x) := Stepped(mem, base, toks[pos], pos, |toks|, k);
        var v := m.kv(k, x, pos);
        var d' := SetCell(d, base, k, pos, v);
        forall t | 0 <= t < |toks|
          ensures Cell(d', base, k, t) == Keys(m, toks, k, |toks|)[t]
        {
          SetCellAt(d, base, k, pos, v, k, t);
          if t < pos {
            SteppedCell(mem, base, toks[pos], pos, |toks|, k, k, t);
            assert Cell(mem, base, k, t) == KvAt(m, toks, k, t);
          }
        }
        assert View(d', base, k, |toks|) == Keys(m, toks, k, |toks|);
        forall l | 0 <= l < li
          ensures Cell(d', base, l, pos) == KvAt(m, toks, l, pos)
        {
          SetCellAt(d, base, k, pos, v, l, pos);
        }
      }
    }

    /** Incremental decode equals recomputation: a step at the last position of `toks` over a
        window holding the earlier ones completes the window and returns the logits of the
        uncached forward.  The cell of that position may hold anything beforehand, so a
        re-run of a position changes nothing. */
    lemma StepHolds(mem: Mem, base: nat, toks: seq<Token>)
      requires |toks| > 0 && Holds(mem, base, toks, |toks| - 1) && |toks| <= pp * BLOCK
      ensures var r := Step(mem, base, toks[|toks| - 1], |toks| - 1, |toks|);
              Holds(r.0, base, toks, |toks|) && r.1 == Logits(m, toks)
    {
      var pos := |toks| - 1;
      SteppedHidden(mem, base, toks, m.nLayer);
      var d := Stepped(mem, base, toks[pos], pos, |toks|, m.nLayer).0;
      forall li, t | 0 <= li < m.nLayer && 0 <= t < |toks|
        ensures Cell(d, base, li, t) == KvAt(m, toks, li, t)
      {
        if t < pos {
          SteppedCell(mem, base, toks[pos], pos, |toks|, m.nLayer, li, t);
          assert Cell(mem, base, li, t) == KvAt(m, toks, li, t);
        }
      }
    }

    // ---- prefill -----------------------------------------------------------------------

    /** Write `kvs` as cells `[0, |kvs|)` of layer `li` of the window at 0. */
    function Filled(mem: Mem, li: nat, kvs: seq<KV>): (r: Mem)
      requires Fits(mem, 0) && li < m.nLayer && |kvs| <= pp * BLOCK
      ensures |r| == |mem|
      decreases |kvs|
    {
      if |kvs| == 0 then mem
      else SetCell(Filled(mem, li, kvs[..|kvs| - 1]), 0, li, |kvs| - 1, kvs[|kvs| - 1])
    }

    lemma {:induction false} FilledAt(mem: Mem, li: nat, kvs: seq<KV>, l: nat, t: nat)
      requires Fits(mem, 0) && li < m.nLayer && |kvs| <= pp * BLOCK && l < m.nLayer && t < pp * BLOCK
      ensures Cell(Filled(mem, li, kvs), 0, l, t)
           == if l == li && t < |kvs| then kvs[t] else Cell(mem, 0, l, t)
      decreases |kvs|
    {
      if |kvs| > 0 {
        var n := |kvs| - 1;
        FilledAt(mem, li, kvs[..n], l, t);
        SetCellAt(Filled(mem, li, kvs[..n]), 0, li, n, kvs[n], l, t);
      }
    }

    /** The keys/values a layer computes from the residuals of a chunk, positions from 0. */
    function LayerKvs(li: nat, xs: seq<Vec>): (r: seq<KV>)
      ensures |r| == |xs|
    {
      seq(|xs|, i requires 0 <= i < |xs| => m.kv(li, xs[i], i))
    }

    /** The residuals leaving a layer, each position attending to itself and those before. */
    function Attended(li: nat, xs: seq<Vec>, kvs: seq<KV>): (r: seq<Vec>)
      requires |kvs| == |xs|
      ensures |r| == |xs|
    {
      seq(|xs|, i requires 0 <= i < |xs| => m.block(li, xs[i], i, kvs[..i + 1]))
    }

    /** `prefill_batch` after `li` layers: all positions of a layer before the next layer,
        attention causal within the chunk, positions counted from 0. */
    function Prefilled(mem: Mem, ids: seq<Token>, li: nat): (r: (Mem, seq<Vec>))
      requires li <= m.nLayer && Fits(mem, 0) && |ids| <= pp * BLOCK
      ensures |r.0| == |mem| && |r.1| == |ids|
    {
      if li == 0 then (mem, seq(|ids|, i requires 0 <= i < |ids| => m.embed(ids[i])))
      else
        var (d, xs) := Prefilled(mem, ids, li - 1);
        var kvs := LayerKvs(li - 1, xs);
        (Filled(d, li - 1, kvs), Attended(li - 1, xs, kvs))
    }

    lemma LayerKvsAre(ids: seq<Token>, k: nat, xs: seq<Vec>)
      requires |xs| == |ids| && forall i :: 0 <= i < |ids| ==> xs[i] == Hidden(m, ids, k, i)
      ensures LayerKvs(k, xs) == Keys(m, ids, k, |ids|)
    {
    }

    lemma AttendedHidden(ids: seq<Token>, k: nat, xs: seq<Vec>)
      requires |xs| == |ids| && forall i :: 0 <= i < |ids| ==> xs[i] == Hidden(m, ids, k, i)
      ensures forall i :: 0 <= i < |ids| ==> Attended(k, xs, Keys(m, ids, k, |ids|))[i] == Hidden(m, ids, k + 1, i)
    {
      forall i | 0 <= i < |ids|
        ensures Attended(k, xs, Keys(m, ids, k, |ids|))[i] == Hidden(m, ids, k + 1, i)
      {
        assert Keys(m, ids, k, |ids|)[..i + 1] == Keys(m, ids, k, i + 1);
      }
    }

    lemma {:induction false} PrefilledResiduals(mem: Mem, ids: seq<Token>, li: nat)
      requires li <= m.nLayer && Fits(mem, 0) && |ids| <= pp * BLOCK
      ensures forall i :: 0 <= i < |ids| ==> Prefilled(mem, ids, li).1[i] == Hidden(m, ids, li, i)
      decreases li
    {
      if li > 0 {
        var k := li - 1;
        PrefilledResiduals(mem, ids, k);
        var xs := Prefilled(mem, ids, k).1;
        LayerKvsAre(ids, k, xs);
        assert Prefilled(mem, ids, li).1 == Attended(k, xs, LayerKvs(k, xs));
        hide Prefilled, LayerKvs;
        AttendedHidden(ids, k, xs);
      }
    }

    lemma {:induction false} PrefilledHidden(mem: Mem, ids: seq<Token>, li: nat)
      requires li <= m.nLayer && Fits(mem, 0) && |ids| <= pp * BLOCK
      ensures forall l, t :: 0 <= l < m.nLayer && 0 <= t < pp * BLOCK ==>
                Cell(Prefilled(mem, ids, li).0, 0, l, t)
                == if l < li && t < |ids| then KvAt(m, ids, l, t) else Cell(mem, 0, l, t)
      decreases li
    {
      if li > 0 {
        var k := li - 1;
        PrefilledHidden(mem, ids, k);
        PrefilledResiduals(mem, ids, k);
        var (d, xs) := Prefilled(mem, ids, k);
        LayerKvsAre(ids, k, xs);
        var kvs := LayerKvs(k, xs);
        assert Prefilled(mem, ids, li).0 == Filled(d, k, kvs);
        hide Prefilled, Filled, LayerKvs, Cell;
        forall l, t | 0 <= l < m.nLayer && 0 <= t < pp * BLOCK
          ensures Cell(Prefilled(mem, ids, li).0, 0, l, t)
               == if l < li && t < |ids| then KvAt(m, ids, l, t) else Cell(mem, 0, l, t)
        {
          FilledAt(d, k, kvs, l, t);
        }
      }
    }

    /** A prefill leaves exactly the full forward's cells of its chunk, and no others, changed. */
    lemma PrefillHolds(mem: Mem, ids: seq<Token>)
      requires Fits(mem, 0) && |ids| <= pp * BLOCK
      ensures Holds(Prefilled(mem, ids, m.nLayer).0, 0, ids, |ids|)
    {
      PrefilledHidden(mem, ids, m.nLayer);
    }

    // ---- decode batch ------------------------------------------------------------------

    predicate RowOk(mem: Mem, r: Row) {
      Fits(mem, r.base) && r.pos < pp * BLOCK && r.kvLen <= pp * BLOCK
    }

    predicate RowsOk(mem: Mem, rows: seq<Row>) {
      forall b :: 0 <= b < |rows| ==> RowOk(mem, rows[b])
    }

    predicate Apart(a: nat, b: nat) {
      a + Window() <= b || b + Window() <= a
    }

    ghost predicate RowsApart(rows: seq<Row>) {
      forall a, b :: 0 <= a < b < |rows| ==> Apart(rows[a].base, rows[b].base)
    }

    /** One layer's KV writes for the first `b` rows. */
    function Written(mem: Mem, rows: seq<Row>, xs: seq<Vec>, li: nat, b: nat): (r: Mem)
      requires RowsOk(mem, rows) && |xs| == |rows| && li < m.nLayer && b <= |rows|
      ensures |r| == |mem|
    {
      if b == 0 then mem
      else
        var row := rows[b - 1];
        assert RowOk(mem, row);
        SetCell(Written(mem, rows, xs, li, b - 1), row.base, li, row.pos, m.kv(li, xs[b - 1], row.pos))
    }

    /** The residuals leaving a layer, each row attending over its own window. */
    function RowsAttended(mem: Mem, rows: seq<Row>, xs: seq<Vec>, li: nat): (r: seq<Vec>)
      requires (forall b :: 0 <= b < |rows| ==> RowOk(mem, rows[b])) && |xs| == |rows| && li < m.nLayer
      ensures |r| == |rows|
    {
      seq(|rows|, b requires 0 <= b < |rows| =>
        assert RowOk(mem, rows[b]);
        m.block(li, xs[b], rows[b].pos, View(mem, rows[b].base, li, rows[b].kvLen)))
    }

    /** The batch step after `li` layers: every row writes its cell, then every row attends. */
    function Batched(mem: Mem, rows: seq<Row>, li: nat): (r: (Mem, seq<Vec>))
      requires RowsOk(mem, rows) && li <= m.nLayer
      ensures |r.0| == |mem| && |r.1| == |rows|
    {
      if li == 0 then (mem, seq(|rows|, b requires 0 <= b < |rows| => m.embed(rows[b].token)))
      else
        var (d, xs) := Batched(mem, rows, li - 1);
        assert forall b :: 0 <= b < |rows| ==> RowOk(mem, rows[b]) && RowOk(d, rows[b]);
        var d' := Written(d, rows, xs, li - 1, |rows|);
        assert forall b :: 0 <= b < |rows| ==> RowOk(mem, rows[b]) && RowOk(d', rows[b]);
        (d', RowsAttended(d', rows, xs, li - 1))
    }

    lemma SetCellApart(mem: Mem, base: nat, li: nat, t: nat, v: KV, other: nat, l: nat, u: nat)
      requires Fits(mem, base) && li < m.nLayer && t < pp * BLOCK
      requires Fits(mem, other) && l < m.nLayer && u < pp * BLOCK && Apart(base, other)
      ensures Cell(SetCell(mem, base, li, t, v), other, l, u) == Cell(mem, other, l, u)
    {
      PageFits(base, li, t / BLOCK);
      PageFits(other, l, u / BLOCK);
    }

    lemma {:induction false} WrittenAt(mem: Mem, rows: seq<Row>, xs: seq<Vec>, li: nat, b: nat,
                                       r: nat, l: nat, t: nat)
      requires RowsOk(mem, rows) && RowsApart(rows) && |xs| == |rows| && li < m.nLayer && b <= |rows|
      requires r < |rows| && l < m.nLayer && t < pp * BLOCK
      ensures RowOk(mem, rows[r])
      ensures Cell(Written(mem, rows, xs, li, b), rows[r].base, l, t)
           == if r < b && l == li && t == rows[r].pos then m.kv(li, xs[r], t) else Cell(mem, rows[r].base, l, t)
      decreases b
    {
      assert RowOk(mem, rows[r]);
      if b > 0 {
        var k := b - 1;
        WrittenAt(mem, rows, xs, li, k, r, l, t);
        var w, row := Written(mem, rows, xs, li, k), rows[k];
        assert RowOk(mem, row);
        if k == r {
          SetCellAt(w, row.base, li, row.pos, m.kv(li, xs[k], row.pos), l, t);
        } else {
          assert Apart(row.base, rows[r].base) by {
            assert k < r ==> Apart(rows[k].base, rows[r].base);
            assert r < k ==> Apart(rows[r].base, rows[k].base);
          }
          SetCellApart(w, row.base, li, row.pos, m.kv(li, xs[k], row.pos), rows[r].base, l, t);
        }
      }
    }

    lemma {:induction false} WrittenElsewhere(mem: Mem, rows: seq<Row>, xs: seq<Vec>, li: nat, b: nat, p: nat)
      requires RowsOk(mem, rows) && |xs| == |rows| && li < m.nLayer && b <= |rows| && p < |mem|
      requires forall r :: 0 <= r < |rows| ==> !(rows[r].base <= p < rows[r].base + Window())
      ensures Written(mem, rows, xs, li, b)[p] == mem[p]
      decreases b
    {
      if b > 0 {
        WrittenElsewhere(mem, rows, xs, li, b - 1, p);
        assert RowOk(mem, rows[b - 1]);
        PageFits(rows[b - 1].base, li, rows[b - 1].pos / BLOCK);
      }
    }

    /** Row `r` of the layer-major batch is what its own step computes. */
    ghost predicate RowAgrees(mem: Mem, rows: seq<Row>, li: nat, r: nat)
      requires RowsOk(mem, rows) && li <= m.nLayer && r < |rows|
    {
      var row := rows[r];
      && RowOk(mem, row)
      && var (d, xs) := Batched(mem, rows, li);
      var (e, x) := Stepped(mem, row.base, row.token, row.pos, row.kvLen, li);
      && xs[r] == x
      && forall l, t :: 0 <= l < m.nLayer && 0 <= t < pp * BLOCK ==> Cell(d, row.base, l, t) == Cell(e, row.base, l, t)
    }

    /** A batch over disjoint windows equals each request stepping alone. */
    lemma {:induction false} BatchIsSteps(mem: Mem, rows: seq<Row>, li: nat, r: nat)
      requires RowsOk(mem, rows) && RowsApart(rows) && li <= m.nLayer && r < |rows|
      ensures RowAgrees(mem, rows, li, r)
      decreases li
    {
      var row := rows[r];
      assert RowOk(mem, row);
      if li > 0 {
        var k := li - 1;
        BatchIsSteps(mem, rows, k, r);
        var (d, xs) := Batched(mem, rows, k);
        var (e, x) := Stepped(mem, row.base, row.token, row.pos, row.kvLen, k);
        assert RowsOk(d, rows) by {
          assert forall b :: 0 <= b < |rows| ==> RowOk(mem, rows[b]) && RowOk(d, rows[b]);
        }
        var d' := Written(d, rows, xs, k, |rows|);
        var e' := SetCell(e, row.base, k, row.pos, m.kv(k, x, row.pos));
        forall l, t | 0 <= l < m.nLayer && 0 <= t < pp * BLOCK
          ensures Cell(d', row.base, l, t) == Cell(e', row.base, l, t)
        {
          WrittenAt(d, rows, xs, k, |rows|, r, l, t);
          SetCellAt(e, row.base, k, row.pos, m.kv(k, x, row.pos), l, t);
        }
        assert View(d', row.base, k, row.kvLen) == View(e', row.base, k, row.kvLen);
      }
    }

    lemma {:induction false} BatchElsewhere(mem: Mem, rows: seq<Row>, li: nat, p: nat)
      requires RowsOk(mem, rows) && li <= m.nLayer && p < |mem|
      requires forall r :: 0 <= r < |rows| ==> !(rows[r].base <= p < rows[r].base + Window())
      ensures Batched(mem, rows, li).0[p] == mem[p]
      decreases li
    {
      if li > 0 {
        BatchElsewhere(mem, rows, li - 1, p);
        var (d, xs) := Batched(mem, rows, li - 1);
        assert RowsOk(d, rows) by {
          assert forall b :: 0 <= b < |rows| ==> RowOk(mem, rows[b]) && RowOk(d, rows[b]);
        }
        WrittenElsewhere(d, rows, xs, li - 1, |rows|, p);
      }
    }

    /** The batch completes every coherent window of the batch and returns, for each, the
        logits of the uncached forward. */
    lemma BatchHolds(mem: Mem, rows: seq<Row>, r: nat, toks: seq<Token>)
      requires RowsOk(mem, rows) && RowsApart(rows) && r < |rows|
      requires |toks| > 0 && Holds(mem, rows[r].base, toks, |toks| - 1)
      requires rows[r].token == toks[|toks| - 1] && rows[r].pos == |toks| - 1 && rows[r].kvLen == |toks|
      ensures var b := Batched(mem, rows, m.nLayer);
              Holds(b.0, rows[r].base, toks, |toks|) && m.head(b.1[r]) == Logits(m, toks)
    {
      var row := rows[r];
      assert RowOk(mem, row);
      BatchIsSteps(mem, rows, m.nLayer, r);
      StepHolds(mem, row.base, toks);
      var b := Batched(mem, rows, m.nLayer);
      var e := Stepped(mem, row.base, row.token, row.pos, row.kvLen, m.nLayer).0;
      forall li, t | 0 <= li < m.nLayer && 0 <= t < |toks|
        ensures Cell(b.0, row.base, li, t) == KvAt(m, toks, li, t)
      {
        assert Cell(b.0, row.base, li, t) == Cell(e, row.base, li, t);
      }
    }
  }
}
