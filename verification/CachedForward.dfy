/** Layer-by-layer cached decoding over a rectangular cache, against the uncached forward. */
module CachedForward {
  import opened Transformer

  /** One row of positions per layer. */
  type Cells = seq<seq<KV>>

  ghost predicate Shaped(m: Model, cells: Cells, cap: nat) {
    |cells| == m.nLayer && forall l :: 0 <= l < |cells| ==> |cells[l]| == cap
  }

  function Put(cells: Cells, li: nat, pos: nat, v: KV): Cells
    requires li < |cells| && pos < |cells[li]|
  {
    cells[li := cells[li][pos := v]]
  }

  /** The cache and the residual after `li` layers of one decode step: a layer writes the cell
      of `pos` and then attends over the first `window` cells. */
  function Advance(m: Model, cells: Cells, cap: nat, emb: Vec, pos: nat, window: nat, li: nat): (r: (Cells, Vec))
    requires Shaped(m, cells, cap) && pos < cap && window <= cap && li <= m.nLayer
    ensures Shaped(m, r.0, cap)
  {
    if li == 0 then (cells, emb)
    else
      var (c, x) := Advance(m, cells, cap, emb, pos, window, li - 1);
      var c' := Put(c, li - 1, pos, m.kv(li - 1, x, pos));
      (c', m.block(li - 1, x, pos, c'[li - 1][..window]))
  }

  /** The cell of position `t` in layer `l` is the full forward's. */
  ghost predicate CellIs(m: Model, cells: Cells, toks: seq<Token>, l: nat, t: nat)
    requires t < |toks|
  {
    l < |cells| && t < |cells[l]| && cells[l][t] == KvAt(m, toks, l, t)
  }

  /** Cells `[0, n)` of every layer are those of a full forward over `toks`. */
  ghost predicate CellsHold(m: Model, cells: Cells, toks: seq<Token>, n: nat) {
    n <= |toks| && forall l, t :: 0 <= l < m.nLayer && 0 <= t < n ==> CellIs(m, cells, toks, l, t)
  }

  lemma {:induction false} AdvanceElsewhere(m: Model, cells: Cells, cap: nat, emb: Vec, pos: nat, window: nat, li: nat, l: nat, t: nat)
    requires Shaped(m, cells, cap) && pos < cap && window <= cap && li <= m.nLayer
    requires l < m.nLayer && t < cap && (t != pos || l >= li)
    ensures Advance(m, cells, cap, emb, pos, window, li).0[l][t] == cells[l][t]
  {
    if li > 0 {
      AdvanceElsewhere(m, cells, cap, emb, pos, window, li - 1, l, t);
    }
  }

  lemma {:induction false} AdvanceHidden(m: Model, cells: Cells, cap: nat, toks: seq<Token>, li: nat)
    requires Shaped(m, cells, cap) && 0 < |toks| <= cap && li <= m.nLayer
    requires CellsHold(m, cells, toks, |toks| - 1)
    ensures var pos := |toks| - 1; var (c, x) := Advance(m, cells, cap, m.embed(toks[pos]), pos, |toks|, li);
            x == Hidden(m, toks, li, pos) && forall l :: 0 <= l < li ==> c[l][pos] == KvAt(m, toks, l, pos)
  {
    if li > 0 {
      var pos, k := |toks| - 1, li - 1;
      AdvanceHidden(m, cells, cap, toks, k);
      var (c, x) := Advance(m, cells, cap, m.embed(toks[pos]), pos, |toks|, k);
      var c' := Put(c, k, pos, m.kv(k, x, pos));
      forall t | 0 <= t < |toks|
        ensures c'[k][t] == Keys(m, toks, k, |toks|)[t]
      {
        if t < pos {
          AdvanceElsewhere(m, cells, cap, m.embed(toks[pos]), pos, |toks|, k, k, t);
          assert CellIs(m, cells, toks, k, t);
        }
      }
      assert c'[k][..|toks|] == Keys(m, toks, k, |toks|);
    }
  }

  /** `c` differs from `cells` in no position but `pos`. */
  ghost predicate OnlyAt(m: Model, cells: Cells, c: Cells, cap: nat, pos: nat) {
    && Shaped(m, cells, cap) && Shaped(m, c, cap)
    && forall l, t :: 0 <= l < m.nLayer && 0 <= t < cap && t != pos ==> c[l][t] == cells[l][t]
  }

  lemma AdvanceOnlyAt(m: Model, cells: Cells, cap: nat, emb: Vec, pos: nat, window: nat)
    requires Shaped(m, cells, cap) && pos < cap && window <= cap
    ensures OnlyAt(m, cells, Advance(m, cells, cap, emb, pos, window, m.nLayer).0, cap, pos)
  {
    forall l, t | 0 <= l < m.nLayer && 0 <= t < cap && t != pos
      ensures Advance(m, cells, cap, emb, pos, window, m.nLayer).0[l][t] == cells[l][t]
    {
      AdvanceElsewhere(m, cells, cap, emb, pos, window, m.nLayer, l, t);
    }
  }

  lemma LastCompletes(m: Model, cells: Cells, c: Cells, cap: nat, toks: seq<Token>)
    requires 0 < |toks| <= cap && CellsHold(m, cells, toks, |toks| - 1) && OnlyAt(m, cells, c, cap, |toks| - 1)
    requires forall l :: 0 <= l < m.nLayer ==> c[l][|toks| - 1] == KvAt(m, toks, l, |toks| - 1)
    ensures CellsHold(m, c, toks, |toks|)
  {
    forall l, t | 0 <= l < m.nLayer && 0 <= t < |toks|
      ensures CellIs(m, c, toks, l, t)
    {
      assert t < |toks| - 1 ==> CellIs(m, cells, toks, l, t);
    }
  }

  /** Cached decoding is the uncached forward: from a cache holding the earlier positions, one
      step completes it, returns the logits of the full forward, and touches no other cell. */
  lemma AdvanceHolds(m: Model, cells: Cells, cap: nat, toks: seq<Token>)
    requires Shaped(m, cells, cap) && 0 < |toks| <= cap && CellsHold(m, cells, toks, |toks| - 1)
    ensures var r := Advance(m, cells, cap, m.embed(toks[|toks| - 1]), |toks| - 1, |toks|, m.nLayer);
            && CellsHold(m, r.0, toks, |toks|) && m.head(r.1) == Logits(m, toks)
            && OnlyAt(m, cells, r.0, cap, |toks| - 1)
  {
    hide Advance, OnlyAt, CellsHold, Hidden, KvAt, Keys;
    AdvanceHidden(m, cells, cap, toks, m.nLayer);
    AdvanceOnlyAt(m, cells, cap, m.embed(toks[|toks| - 1]), |toks| - 1, |toks|);
    LastCompletes(m, cells, Advance(m, cells, cap, m.embed(toks[|toks| - 1]), |toks| - 1, |toks|, m.nLayer).0, cap, toks);
  }

  /** Running the last position again changes neither the cache nor the logits. */
  lemma AdvanceAgain(m: Model, cells: Cells, cap: nat, toks: seq<Token>)
    requires Shaped(m, cells, cap) && 0 < |toks| <= cap && CellsHold(m, cells, toks, |toks|)
    ensures var pos := |toks| - 1; var (c, x) := Advance(m, cells, cap, m.embed(toks[pos]), pos, |toks|, m.nLayer);
            c == cells && m.head(x) == Logits(m, toks)
  {
    hide Advance, Hidden, KvAt;
    var pos := |toks| - 1;
    AdvanceHolds(m, cells, cap, toks);
    var c := Advance(m, cells, cap, m.embed(toks[pos]), pos, |toks|, m.nLayer).0;
    forall l | 0 <= l < m.nLayer
      ensures c[l] == cells[l]
    {
      forall t | 0 <= t < cap
        ensures c[l][t] == cells[l][t]
      {
        if t < |toks| {
          assert CellIs(m, c, toks, l, t) && CellIs(m, cells, toks, l, t);
        }
      }
    }
  }

  /** Decode-step the first `n` tokens in order, attending over at most the first `limit`
      positions: the cache, and the last row of logits. */
  function Replayed(m: Model, cells: Cells, cap: nat, limit: nat, toks: seq<Token>, n: nat): (r: (Cells, Vec))
    requires Shaped(m, cells, cap) && n <= |toks| && n <= cap
    ensures Shaped(m, r.0, cap)
  {
    if n == 0 then (cells, [])
    else
      var window := if n < limit then n else limit;
      var (c, x) := Advance(m, Replayed(m, cells, cap, limit, toks, n - 1).0, cap, m.embed(toks[n - 1]), n - 1, window, m.nLayer);
      (c, m.head(x))
  }

  /** Up to the limit, stepping a prompt token by token fills the cache as a full forward would,
      whatever the cache held before, and gives the full forward's row. */
  lemma {:induction false} ReplayHolds(m: Model, cells: Cells, cap: nat, limit: nat, toks: seq<Token>, n: nat)
    requires Shaped(m, cells, cap) && n <= |toks| && n <= cap && n <= limit
    ensures CellsHold(m, Replayed(m, cells, cap, limit, toks, n).0, toks, n)
    ensures n > 0 ==> Replayed(m, cells, cap, limit, toks, n).1 == Logits(m, toks[..n])
  {
    if n > 0 {
      ReplayHolds(m, cells, cap, limit, toks, n - 1);
      var before := Replayed(m, cells, cap, limit, toks, n - 1).0;
      HoldPrefix(m, before, toks, toks[..n], n - 1);
      AdvanceHolds(m, before, cap, toks[..n]);
      HoldPrefix(m, Replayed(m, cells, cap, limit, toks, n).0, toks[..n], toks, n);
    }
  }

  /** Past the limit the cells inside it stay as they are. */
  lemma {:induction false} ReplayKeeps(m: Model, cells: Cells, cap: nat, limit: nat, toks: seq<Token>, n: nat)
    requires Shaped(m, cells, cap) && limit <= n <= |toks| && n <= cap
    ensures CellsHold(m, Replayed(m, cells, cap, limit, toks, n).0, toks, limit)
    decreases n
  {
    if n == limit {
      ReplayHolds(m, cells, cap, limit, toks, n);
    } else {
      ReplayKeeps(m, cells, cap, limit, toks, n - 1);
      var before := Replayed(m, cells, cap, limit, toks, n - 1).0;
      forall l, t | 0 <= l < m.nLayer && 0 <= t < limit
        ensures CellIs(m, Replayed(m, cells, cap, limit, toks, n).0, toks, l, t)
      {
        assert CellIs(m, before, toks, l, t);
        AdvanceElsewhere(m, before, cap, m.embed(toks[n - 1]), n - 1, limit, m.nLayer, l, t);
      }
    }
  }

  /** The first `n` cells of every layer are the same. */
  ghost predicate SameTo(m: Model, c: Cells, d: Cells, n: nat) {
    && |c| == |d| == m.nLayer
    && forall l :: 0 <= l < m.nLayer ==> n <= |c[l]| && n <= |d[l]| && c[l][..n] == d[l][..n]
  }

  /** A step writes nothing below its own position. */
  lemma AdvanceBelow(m: Model, c: Cells, cap: nat, emb: Vec, pos: nat, window: nat, li: nat, l: nat)
    requires Shaped(m, c, cap) && window <= pos < cap && li <= m.nLayer && l < m.nLayer
    ensures Advance(m, c, cap, emb, pos, window, li).0[l][..window] == c[l][..window]
  {
    hide Advance;
    forall t | 0 <= t < window
      ensures Advance(m, c, cap, emb, pos, window, li).0[l][t] == c[l][t]
    {
      AdvanceElsewhere(m, c, cap, emb, pos, window, li, l, t);
    }
  }

  /** A step at or past its window sees only the cells of the window. */
  lemma {:induction false} AdvanceSame(m: Model, c: Cells, d: Cells, cap: nat, emb: Vec, pos: nat, window: nat, li: nat)
    requires Shaped(m, c, cap) && Shaped(m, d, cap) && window <= pos < cap && li <= m.nLayer && SameTo(m, c, d, window)
    ensures Advance(m, c, cap, emb, pos, window, li).1 == Advance(m, d, cap, emb, pos, window, li).1
  {
    if li > 0 {
      var k := li - 1;
      AdvanceSame(m, c, d, cap, emb, pos, window, k);
      AdvanceBelow(m, c, cap, emb, pos, window, k, k);
      AdvanceBelow(m, d, cap, emb, pos, window, k, k);
      var (c', x) := Advance(m, c, cap, emb, pos, window, k);
      var d' := Advance(m, d, cap, emb, pos, window, k).0;
      var kv := m.kv(k, x, pos);
      assert Put(c', k, pos, kv)[k][..window] == c[k][..window];
      assert Put(d', k, pos, kv)[k][..window] == d[k][..window];
    }
  }

  /** Past the limit a row depends only on the tokens inside the limit and on its own token:
      what stands between them is never attended to. */
  lemma PastLimit(m: Model, c: Cells, d: Cells, cap: nat, limit: nat, a: seq<Token>, b: seq<Token>)
    requires Shaped(m, c, cap) && Shaped(m, d, cap) && limit < |a| == |b| <= cap
    requires a[..limit] == b[..limit] && a[|a| - 1] == b[|b| - 1]
    ensures Replayed(m, c, cap, limit, a, |a|).1 == Replayed(m, d, cap, limit, b, |b|).1
  {
    hide *;
    var n := |a| - 1;
    LastRow(m, c, cap, limit, a);
    LastRow(m, d, cap, limit, b);
    ReplaySame(m, c, d, cap, limit, a, b, n);
    AdvanceSame(m, Replayed(m, c, cap, limit, a, n).0, Replayed(m, d, cap, limit, b, n).0, cap, m.embed(a[n]), n, limit, m.nLayer);
  }

  lemma ReplaySame(m: Model, c: Cells, d: Cells, cap: nat, limit: nat, a: seq<Token>, b: seq<Token>, n: nat)
    requires Shaped(m, c, cap) && Shaped(m, d, cap) && limit <= n <= |a| && n <= |b| && n <= cap && a[..limit] == b[..limit]
    ensures SameTo(m, Replayed(m, c, cap, limit, a, n).0, Replayed(m, d, cap, limit, b, n).0, limit)
  {
    hide CellsHold, Replayed, SameTo, Shaped;
    var ca, cb := Replayed(m, c, cap, limit, a, n).0, Replayed(m, d, cap, limit, b, n).0;
    ReplayKeeps(m, c, cap, limit, a, n);
    ReplayKeeps(m, d, cap, limit, b, n);
    HoldPrefix(m, cb, b, a, limit);
    HeldSame(m, ca, cb, cap, a, limit);
  }

  lemma LastRow(m: Model, cells: Cells, cap: nat, limit: nat, toks: seq<Token>)
    requires Shaped(m, cells, cap) && limit < |toks| <= cap
    ensures var n := |toks| - 1;
            Replayed(m, cells, cap, limit, toks, |toks|).1
            == m.head(Advance(m, Replayed(m, cells, cap, limit, toks, n).0, cap, m.embed(toks[n]), n, limit, m.nLayer).1)
  {
    hide Advance;
  }

  lemma HeldSame(m: Model, c: Cells, d: Cells, cap: nat, toks: seq<Token>, n: nat)
    requires Shaped(m, c, cap) && Shaped(m, d, cap) && CellsHold(m, c, toks, n) && CellsHold(m, d, toks, n)
    ensures SameTo(m, c, d, n)
  {
    forall l | 0 <= l < m.nLayer
      ensures n <= |c[l]| && n <= |d[l]| && c[l][..n] == d[l][..n]
    {
      forall t | 0 <= t < n
        ensures t < cap && c[l][t] == d[l][t]
      {
        assert CellIs(m, c, toks, l, t) && CellIs(m, d, toks, l, t);
      }
      assert n > 0 ==> CellIs(m, c, toks, l, n - 1);
    }
  }

  lemma HoldPrefix(m: Model, cells: Cells, a: seq<Token>, b: seq<Token>, n: nat)
    requires CellsHold(m, cells, a, n) && n <= |b| && a[..n] == b[..n]
    ensures CellsHold(m, cells, b, n)
  {
    forall l, t | 0 <= l < m.nLayer && 0 <= t < n
      ensures CellIs(m, cells, b, l, t)
    {
      assert CellIs(m, cells, a, l, t);
      assert a[..t + 1] == a[..n][..t + 1] == b[..t + 1];
      KvCausal(m, a, b, l, t);
    }
  }
}
