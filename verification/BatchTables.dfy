/** The batch step's device tables: built only when the segment set changes, yet always what a
    fresh build would be. */
module BatchTables {
  import opened Requests
  import opened Arith
  import opened Matrix

  /** A request's segment: its pool (0 for the engine's own) and first page. */
  datatype Seg = Seg(pool: nat, base: nat)

  datatype BatchReq = BatchReq(token: nat, pos: nat, kvLen: nat, seg: Seg)

  /** Layers, pages per layer run, tokens per page, and the address of the engine's own pool. */
  datatype Shape = Shape(nLayer: nat, pp: nat, blockLen: nat, vocab: nat, ownPool: nat) {
    function Window(): nat {
      nLayer * pp
    }

    /** Flat index of page `j` of layer `li` of request `b`. */
    function Slot(b: nat, li: nat, j: nat): nat {
      At(At(b, nLayer, li), pp, j)
    }

    function Entries(b: nat): nat {
      b * nLayer * pp
    }

    function PageOf(base: nat, li: nat, j: nat): nat {
      base + li * pp + j
    }

    predicate InTable(n: nat, b: nat, li: nat, j: nat) {
      b < n && li < nLayer && j < pp
    }

    lemma SlotBound(n: nat, b: nat, li: nat, j: nat)
      requires InTable(n, b, li, j)
      ensures Slot(b, li, j) < Entries(n)
    {
      AtBound(b, n, nLayer, li);
      AtBound(At(b, nLayer, li), n * nLayer, pp, j);
    }

    lemma SlotUnique(n: nat, b: nat, li: nat, j: nat, b': nat, li': nat, j': nat)
      requires InTable(n, b, li, j) && InTable(n, b', li', j') && Slot(b, li, j) == Slot(b', li', j')
      ensures b == b' && li == li' && j == j'
    {
      AtUnique(At(b, nLayer, li), j, At(b', nLayer, li'), j', pp);
      AtUnique(b, li, b', li', nLayer);
    }

    /** `t` begins with the identity page tables of `segs`. */
    ghost predicate PagesAre(t: seq<nat>, segs: seq<Seg>) {
      && Entries(|segs|) <= |t|
      && forall b: nat, li: nat, j: nat {:trigger Slot(b, li, j)} :: InTable(|segs|, b, li, j) ==>
           Slot(b, li, j) < |t| && t[Slot(b, li, j)] == PageOf(segs[b].base, li, j)
    }

    /** The pool a request lives in. */
    function PoolOf(s: Seg): nat {
      if s.pool == 0 then ownPool else s.pool
    }

    ghost predicate PoolsAre(t: seq<nat>, segs: seq<Seg>) {
      |segs| <= |t| && forall b :: 0 <= b < |segs| ==> t[b] == PoolOf(segs[b])
    }
  }

  function Segs(reqs: seq<BatchReq>): (r: seq<Seg>)
    ensures |r| == |reqs|
  {
    seq(|reqs|, b requires 0 <= b < |reqs| => reqs[b].seg)
  }

  // ---- the pool contract ---------------------------------------------------------------------------

  /** One pool for all, or one pool each. */
  predicate PoolContract(reqs: seq<BatchReq>) {
    if forall r :: r in reqs ==> r.seg.pool == reqs[0].seg.pool then
      forall r :: r in reqs ==> (r.seg.pool == 0 ==> r.seg.base == 0)
    else forall r :: r in reqs ==> r.seg.pool != 0 && r.seg.base == 0
  }

  predicate ReqFits(sh: Shape, r: BatchReq) {
    r.token < sh.vocab && 0 < r.kvLen <= sh.pp * sh.blockLen && sh.blockLen > 0 && r.pos / sh.blockLen < sh.pp
  }

  function Extent(sh: Shape, reqs: seq<BatchReq>, n: nat): nat
    requires n <= |reqs|
  {
    if n == 0 then 0
    else
      var prior, end := Extent(sh, reqs, n - 1), reqs[n - 1].seg.base + sh.Window();
      if prior > end then prior else end
  }

  /** The extent is where the window that reaches furthest ends. */
  lemma {:induction false} ExtentIs(sh: Shape, reqs: seq<BatchReq>, n: nat)
    requires n <= |reqs|
    ensures forall b :: 0 <= b < n ==> reqs[b].seg.base + sh.nLayer * sh.pp <= Extent(sh, reqs, n)
    ensures n == 0 ==> Extent(sh, reqs, n) == 0
    ensures n > 0 ==> exists b :: 0 <= b < n && reqs[b].seg.base + sh.nLayer * sh.pp == Extent(sh, reqs, n)
  {
    if n > 0 {
      ExtentIs(sh, reqs, n - 1);
      if Extent(sh, reqs, n) == reqs[n - 1].seg.base + sh.Window() {
        assert reqs[n - 1].seg.base + sh.nLayer * sh.pp == Extent(sh, reqs, n);
      } else {
        var b :| 0 <= b < n - 1 && reqs[b].seg.base + sh.nLayer * sh.pp == Extent(sh, reqs, n - 1);
        assert reqs[b].seg.base + sh.nLayer * sh.pp == Extent(sh, reqs, n);
      }
    }
  }

  /** Refuse mixed pools and requests outside the vocabulary or the window; compute the K-region
      size of the pool. */
  method CheckBatch(sh: Shape, reqs: seq<BatchReq>) returns (poolPages: Option<nat>)
    requires reqs != [] && sh.blockLen > 0
    ensures poolPages.Some? <==> PoolContract(reqs) && forall r :: r in reqs ==> ReqFits(sh, r)
    ensures poolPages.Some? ==> poolPages.value == Extent(sh, reqs, |reqs|)
  {
    var p0 := reqs[0].seg.pool;
    var shared := forall r :: r in reqs ==> r.seg.pool == p0;
    var pages, i := 0, 0;
    while i < |reqs|
      invariant i <= |reqs| && pages == Extent(sh, reqs, i)
      invariant forall k :: 0 <= k < i ==> ReqFits(sh, reqs[k])
      invariant forall k :: 0 <= k < i ==>
                  if shared then reqs[k].seg.pool == 0 ==> reqs[k].seg.base == 0
                  else reqs[k].seg.pool != 0 && reqs[k].seg.base == 0
    {
      var r := reqs[i];
      assert r in reqs;
      if r.token >= sh.vocab {
        return None;
      }
      if shared {
        if r.seg.pool == 0 && r.seg.base != 0 {
          return None;
        }
      } else if r.seg.pool == 0 || r.seg.base != 0 {
        return None;
      }
      if r.kvLen == 0 || r.kvLen > sh.pp * sh.blockLen {
        return None;
      }
      if r.pos / sh.blockLen >= sh.pp {
        return None;
      }
      var end := r.seg.base + sh.Window();
      pages := if pages > end then pages else end;
      i := i + 1;
    }
    poolPages := Some(pages);
  }

  // ---- building the tables ---------------------------------------------------------------------------

  /** Pages pushed so far: all of the requests before `b`, the layers of `b` before `li`, and
      `j` pages of that layer. */
  ghost predicate Pushed(sh: Shape, t: seq<nat>, segs: seq<Seg>, b: nat, li: nat, j: nat) {
    && |t| == sh.Slot(b, li, j)
    && forall c: nat, l: nat, k: nat {:trigger sh.Slot(c, l, k)} ::
         sh.InTable(|segs|, c, l, k) && sh.Slot(c, l, k) < |t| ==> t[sh.Slot(c, l, k)] == sh.PageOf(segs[c].base, l, k)
  }

  lemma PushPage(sh: Shape, t: seq<nat>, segs: seq<Seg>, b: nat, li: nat, j: nat)
    requires Pushed(sh, t, segs, b, li, j) && sh.InTable(|segs|, b, li, j)
    ensures Pushed(sh, t + [sh.PageOf(segs[b].base, li, j)], segs, b, li, j + 1)
  {
    var t' := t + [sh.PageOf(segs[b].base, li, j)];
    forall c: nat, l: nat, k: nat {:trigger sh.Slot(c, l, k)} | sh.InTable(|segs|, c, l, k) && sh.Slot(c, l, k) < |t'|
      ensures t'[sh.Slot(c, l, k)] == sh.PageOf(segs[c].base, l, k)
    {
      if sh.Slot(c, l, k) == |t| {
        sh.SlotUnique(|segs|, c, l, k, b, li, j);
      }
    }
  }

  /** A full layer is the start of the next, a full request the start of the next. */
  lemma SlotCarries(sh: Shape, b: nat, li: nat)
    ensures sh.Slot(b, li, sh.pp) == sh.Slot(b, li + 1, 0)
    ensures sh.Slot(b, sh.nLayer, 0) == sh.Slot(b + 1, 0, 0)
    ensures sh.Slot(b, 0, 0) == sh.Entries(b)
  {
    assert (b * sh.nLayer + li) * sh.pp + sh.pp == (b * sh.nLayer + (li + 1)) * sh.pp;
    assert b * sh.nLayer + sh.nLayer == (b + 1) * sh.nLayer + 0;
  }

  method BuildPages(sh: Shape, segs: seq<Seg>) returns (t: seq<nat>)
    ensures |t| == sh.Entries(|segs|) && sh.PagesAre(t, segs)
  {
    t := [];
    var b := 0;
    SlotCarries(sh, 0, 0);
    while b < |segs|
      invariant b <= |segs| && Pushed(sh, t, segs, b, 0, 0)
    {
      var li := 0;
      while li < sh.nLayer
        invariant li <= sh.nLayer && Pushed(sh, t, segs, b, li, 0)
      {
        t := PushLayer(sh, t, segs, b, li);
        li := li + 1;
      }
      SlotCarries(sh, b, 0);
      b := b + 1;
    }
    SlotCarries(sh, b, 0);
    forall c: nat, l: nat, k: nat {:trigger sh.Slot(c, l, k)} | sh.InTable(|segs|, c, l, k)
      ensures sh.Slot(c, l, k) < |t|
    {
      sh.SlotBound(|segs|, c, l, k);
    }
  }

  method PushLayer(sh: Shape, t0: seq<nat>, segs: seq<Seg>, b: nat, li: nat) returns (t: seq<nat>)
    requires Pushed(sh, t0, segs, b, li, 0) && b < |segs| && li < sh.nLayer
    ensures Pushed(sh, t, segs, b, li + 1, 0)
  {
    t := t0;
    var base, j := segs[b].base + li * sh.pp, 0;
    while j < sh.pp
      invariant j <= sh.pp && Pushed(sh, t, segs, b, li, j)
    {
      PushPage(sh, t, segs, b, li, j);
      t := t + [base + j];
      j := j + 1;
    }
    SlotCarries(sh, b, li);
  }

  method BuildPools(sh: Shape, segs: seq<Seg>) returns (t: seq<nat>)
    ensures |t| == |segs| && sh.PoolsAre(t, segs)
  {
    t := [];
    var b := 0;
    while b < |segs|
      invariant b == |t| <= |segs| && forall k :: 0 <= k < b ==> t[k] == sh.PoolOf(segs[k])
    {
      t := t + [sh.PoolOf(segs[b])];
      b := b + 1;
    }
  }

  // ---- the scratch -------------------------------------------------------------------------------------

  /** Host to device: the first `|src|` entries. */
  method Upload(dst: array<nat>, src: seq<nat>)
    requires |src| <= dst.Length
    modifies dst
    ensures dst[..|src|] == src && dst[|src|..] == old(dst[|src|..])
  {
    forall i | 0 <= i < |src| {
      dst[i] := src[i];
    }
  }

  class Scratch {
    const sh: Shape
    var cap: nat
    var key: Option<seq<Seg>>
    var toks: array<nat>
    var lens: array<nat>
    var pos: array<nat>
    var pages: array<nat>
    var pools: array<nat>

    ghost predicate Valid()
      reads this, pages, pools
    {
      && toks.Length == lens.Length == pos.Length == pools.Length == cap && pages.Length == sh.Entries(cap)
      && toks != lens && toks != pos && toks != pages && toks != pools && lens != pos && lens != pages && lens != pools
      && pos != pages && pos != pools && pages != pools
      && (key.Some? ==> |key.value| <= cap && sh.PagesAre(pages[..], key.value) && sh.PoolsAre(pools[..], key.value))
    }

    ghost function Repr(): set<object>
      reads this
    {
      {this, toks, lens, pos, pages, pools}
    }

    /** No scratch yet. */
    constructor (sh: Shape)
      ensures Valid() && this.sh == sh && fresh(Repr())
    {
      this.sh := sh;
      cap, key := 0, None;
      toks, lens, pos, pages, pools := new nat[0], new nat[0], new nat[0], new nat[sh.Entries(0)], new nat[0];
    }

    /** Grow to `b` requests: new buffers with arbitrary content, so the key is dropped. */
    method Ensure(b: nat)
      requires Valid()
      modifies this
      ensures Valid() && cap == (if old(cap) >= b then old(cap) else b) && key == (if old(cap) >= b then old(key) else None)
      ensures fresh(Repr() - old(Repr()))
      ensures old(cap) >= b ==> Repr() == old(Repr())
    {
      if cap >= b {
        return;
      }
      key := None;
      cap := b;
      toks, lens, pos, pages, pools := new nat[b], new nat[b], new nat[b], new nat[sh.Entries(b)], new nat[b];
    }

    /** Stage one batch step.  Whatever steps came before, and whether or not the page tables
        were uploaded this time, the kernels read freshly built tables. */
    method StageStep(reqs: seq<BatchReq>) returns (uploaded: bool)
      requires Valid()
      modifies Repr()
      ensures Valid() && fresh(Repr() - old(Repr())) && key == Some(Segs(reqs)) && |reqs| <= cap
      ensures sh.PagesAre(pages[..], Segs(reqs)) && sh.PoolsAre(pools[..], Segs(reqs))
      ensures forall b :: 0 <= b < |reqs| ==> toks[b] == reqs[b].token && lens[b] == reqs[b].kvLen && pos[b] == reqs[b].pos
      ensures uploaded <==> old(key) != Some(Segs(reqs)) || old(cap) < |reqs|
    {
      hide Shape.PagesAre, Shape.PoolsAre, Segs;
      Ensure(|reqs|);
      var segs := Segs(reqs);
      uploaded := key != Some(segs);
      if uploaded {
        UploadTables(segs);
      }
      UploadRows(reqs);
    }

    /** Tokens, lengths and positions change every step. */
    method UploadRows(reqs: seq<BatchReq>)
      requires Valid() && |reqs| <= cap
      modifies toks, lens, pos
      ensures forall b :: 0 <= b < |reqs| ==> toks[b] == reqs[b].token && lens[b] == reqs[b].kvLen && pos[b] == reqs[b].pos
    {
      Upload(toks, seq(|reqs|, b requires 0 <= b < |reqs| => reqs[b].token));
      Upload(lens, seq(|reqs|, b requires 0 <= b < |reqs| => reqs[b].kvLen));
      Upload(pos, seq(|reqs|, b requires 0 <= b < |reqs| => reqs[b].pos));
      assert forall b :: 0 <= b < |reqs| ==> toks[b] == toks[..|reqs|][b] && lens[b] == lens[..|reqs|][b] && pos[b] == pos[..|reqs|][b];
    }

    method UploadTables(segs: seq<Seg>)
      requires Valid() && |segs| <= cap
      modifies `key, pages, pools
      ensures Valid() && key == Some(segs)
    {
      var t := BuildPages(sh, segs);
      var u := BuildPools(sh, segs);
      EntriesMono(sh, |segs|, cap);
      Upload(pages, t);
      Upload(pools, u);
      key := Some(segs);
      Prefix(sh, t, pages[..], segs);
      assert forall b :: 0 <= b < |segs| ==> pools[..][b] == pools[..|segs|][b];
    }
  }

  lemma EntriesMono(sh: Shape, a: nat, b: nat)
    requires a <= b
    ensures sh.Entries(a) <= sh.Entries(b)
  {
    MulMono(a, b, sh.nLayer);
    MulMono(a * sh.nLayer, b * sh.nLayer, sh.pp);
  }

  lemma Prefix(sh: Shape, t: seq<nat>, longer: seq<nat>, segs: seq<Seg>)
    requires sh.PagesAre(t, segs) && |t| == sh.Entries(|segs|) <= |longer| && longer[..|t|] == t
    ensures sh.PagesAre(longer, segs)
  {
    forall b: nat, li: nat, j: nat {:trigger sh.Slot(b, li, j)} | sh.InTable(|segs|, b, li, j)
      ensures longer[sh.Slot(b, li, j)] == sh.PageOf(segs[b].base, li, j)
    {
      assert longer[..|t|][sh.Slot(b, li, j)] == t[sh.Slot(b, li, j)];
    }
  }
}
