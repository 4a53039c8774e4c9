/** The device executor as an object: the engine and its pool, the shared page store, the
    segment pool and the singleton.  Every operation works in place and is proved against the
    value-level operation of `ExecSteps`. */
module ExecutorKv {
  import opened Transformer
  import opened PagedKv
  import opened Requests
  import opened SchedState
  import opened ExecSteps
  import opened SchedSteps
  import opened SegmentPool
  import opened EngineKv

  // ---- runs, layer by layer ------------------------------------------------------------------------

  /** Page `p` is one of the first `n` of a layer run below layer `li`. */
  ghost predicate InRunTo(dev: Dev, base: nat, n: nat, li: nat, p: nat) {
    exists l, j :: 0 <= l < li && 0 <= j < n && p == dev.PageOf(base, l, j)
  }

  ghost function RefRunTo(dev: Dev, refs: seq<nat>, base: nat, n: nat, li: nat): (r: seq<nat>)
    ensures |r| == |refs|
  {
    seq(|refs|, p requires 0 <= p < |refs| => if InRunTo(dev, base, n, li, p) then refs[p] + 1 else refs[p])
  }

  ghost function UnrefRunTo(dev: Dev, refs: seq<nat>, base: nat, n: nat, li: nat): (r: seq<nat>)
    ensures |r| == |refs|
  {
    seq(|refs|, p requires 0 <= p < |refs| =>
      if InRunTo(dev, base, n, li, p) && refs[p] > 0 then refs[p] - 1 else refs[p])
  }

  /** One more layer adds exactly its own run. */
  lemma InRunGrows(dev: Dev, base: nat, n: nat, li: nat, p: nat)
    requires n <= dev.pp
    ensures var first := dev.PageOf(base, li, 0);
            && (InRunTo(dev, base, n, li + 1, p) <==> InRunTo(dev, base, n, li, p) || first <= p < first + n)
            && !(InRunTo(dev, base, n, li, p) && first <= p < first + n)
  {
    var first := dev.PageOf(base, li, 0);
    if first <= p < first + n {
      assert p == dev.PageOf(base, li, p - first);
      if l, j :| 0 <= l < li && 0 <= j < n && p == dev.PageOf(base, l, j) {
        dev.PagesApart(base, l, j, li, p - first);
      }
    }
    if InRunTo(dev, base, n, li + 1, p) {
      var l, j :| 0 <= l < li + 1 && 0 <= j < n && p == dev.PageOf(base, l, j);
      if l == li {
        assert p == first + j;
      }
    }
  }

  lemma RefLayer(dev: Dev, refs: seq<nat>, base: nat, n: nat, li: nat)
    requires n <= dev.pp
    ensures RefPages(RefRunTo(dev, refs, base, n, li), dev.PageOf(base, li, 0), n) == RefRunTo(dev, refs, base, n, li + 1)
  {
    forall p | 0 <= p < |refs|
      ensures RefPages(RefRunTo(dev, refs, base, n, li), dev.PageOf(base, li, 0), n)[p] == RefRunTo(dev, refs, base, n, li + 1)[p]
    {
      InRunGrows(dev, base, n, li, p);
    }
  }

  lemma UnrefLayer(dev: Dev, refs: seq<nat>, base: nat, n: nat, li: nat)
    requires n <= dev.pp
    ensures DropRefs(UnrefRunTo(dev, refs, base, n, li), dev.PageOf(base, li, 0), n) == UnrefRunTo(dev, refs, base, n, li + 1)
  {
    forall p | 0 <= p < |refs|
      ensures DropRefs(UnrefRunTo(dev, refs, base, n, li), dev.PageOf(base, li, 0), n)[p] == UnrefRunTo(dev, refs, base, n, li + 1)[p]
    {
      InRunGrows(dev, base, n, li, p);
    }
  }

  lemma RunsStart(dev: Dev, refs: seq<nat>, base: nat, n: nat)
    ensures RefRunTo(dev, refs, base, n, 0) == refs == UnrefRunTo(dev, refs, base, n, 0)
  {
  }

  lemma RunsEnd(dev: Dev, refs: seq<nat>, base: nat, n: nat)
    ensures RefRunTo(dev, refs, base, n, dev.m.nLayer) == RefRun(dev, refs, base, n)
    ensures UnrefRunTo(dev, refs, base, n, dev.m.nLayer) == UnrefRun(dev, refs, base, n)
  {
    forall p
      ensures InRunTo(dev, base, n, dev.m.nLayer, p) <==> dev.InRun(base, n, p)
    {
    }
  }

  /** Every page of a cached run is referenced. */
  ghost predicate RunHeld(dev: Dev, refs: seq<nat>, base: nat, n: nat) {
    forall li :: 0 <= li < dev.m.nLayer ==> AllHeld(refs, dev.PageOf(base, li, 0), n)
  }

  lemma StillHeld(dev: Dev, refs: seq<nat>, base: nat, n: nat, li: nat)
    requires n <= dev.pp && li < dev.m.nLayer && RunHeld(dev, refs, base, n)
    ensures AllHeld(RefRunTo(dev, refs, base, n, li), dev.PageOf(base, li, 0), n)
    ensures AllHeld(UnrefRunTo(dev, refs, base, n, li), dev.PageOf(base, li, 0), n)
  {
    var first := dev.PageOf(base, li, 0);
    assert AllHeld(refs, first, n);
    forall p | first <= p < first + n
      ensures RefRunTo(dev, refs, base, n, li)[p] >= 1 && UnrefRunTo(dev, refs, base, n, li)[p] >= 1
    {
      InRunGrows(dev, base, n, li, p);
    }
  }

  /** A segment's prefix runs are held when the segment is. */
  lemma SegmentRunHeld(c: Cfg, refs: seq<nat>, base: nat, n: nat)
    requires n <= c.dev.pp && AllHeld(refs, base, c.W())
    ensures RunHeld(c.dev, refs, base, n)
  {
    forall li | 0 <= li < c.dev.m.nLayer
      ensures AllHeld(refs, c.dev.PageOf(base, li, 0), n)
    {
      if n > 0 {
        c.dev.PageFits(base, li, n - 1);
      } else {
        c.dev.PageFits(base, li, 0);
      }
    }
  }

  /** What `refill_prefix` does to the executor. */
  ghost function RefillOp(c: Cfg, x: Exec, id: Id, base: nat, n: nat): (r: Exec)
    requires ExecOk(c, x) && base + c.W() <= c.kvPages
  {
    var f := TakeAndFlush(c, x, id, base);
    f.(refs := DropRefs(RefRun(c.dev, f.refs, base, n), base, c.W()))
  }

  /** `n` pages per layer, one copy per layer, from the run at `sb` to the run at `db`. */
  method CopyLayers(dev: Dev, dst: KvStore, src: KvStore, db: nat, sb: nat, n: nat)
    requires dst != src && dev.RunFits(|dst.pages|, db, n) && dev.RunFits(|src.pages|, sb, n)
    modifies dst
    ensures dst.pages == dev.Copied(old(dst.pages), src.pages, db, sb, n, dev.m.nLayer)
  {
    if n == 0 {
      return;
    }
    var li := 0;
    while li < dev.m.nLayer
      invariant li <= dev.m.nLayer && |dst.pages| == |old(dst.pages)|
      invariant dst.pages == dev.Copied(old(dst.pages), src.pages, db, sb, n, li)
    {
      CopiedNext(dev, old(dst.pages), src.pages, db, sb, n, li);
      dst.pages := Splice(dst.pages, dev.PageOf(db, li, 0), src.pages, dev.PageOf(sb, li, 0), n);
      li := li + 1;
    }
  }

  lemma CopiedNext(dev: Dev, dst: Mem, src: Mem, db: nat, sb: nat, n: nat, li: nat)
    requires 0 < n && li < dev.m.nLayer && dev.RunFits(|dst|, db, n) && dev.RunFits(|src|, sb, n)
    ensures dev.PageOf(db, li, 0) + n <= |dst| && dev.PageOf(sb, li, 0) + n <= |src|
    ensures dev.Copied(dst, src, db, sb, n, li + 1) ==
            Splice(dev.Copied(dst, src, db, sb, n, li), dev.PageOf(db, li, 0), src, dev.PageOf(sb, li, 0), n)
  {
    assert dev.PageOf(db, li, n - 1) < |dst| && dev.PageOf(sb, li, n - 1) < |src|;
  }

  /** Decode-step the tokens of `toks` from position `from` on. */
  method StepSuffix(engine: Engine, toks: seq<Token>, from: nat)
    requires engine.Valid() && from <= |toks| <= engine.dev.pp * BLOCK
    modifies engine.kv
    ensures engine.Valid() && engine.kv.pages == StepTokens(engine.dev, old(engine.kv.pages), toks, from, |toks|)
  {
    var pos := from;
    while pos < |toks|
      invariant from <= pos <= |toks| && engine.Valid()
      invariant engine.kv.pages == StepTokens(engine.dev, old(engine.kv.pages), toks, from, pos)
    {
      var _ := engine.Step(toks[pos], pos, pos + 1);
      pos := pos + 1;
    }
  }

  // ---- the executor --------------------------------------------------------------------------------

  class Executor {
    const c: Cfg
    const engine: Engine
    const store: KvStore
    const pool: Pool
    const anchor: nat
    var singleton: Option<Single>

    ghost function Repr(): set<object> {
      {this, engine.kv, store, pool, pool.refs}
    }

    ghost function State(): Exec
      reads this, engine.kv, store, pool.refs
    {
      Exec(engine.kv.pages, store.pages, pool.refs[..], singleton)
    }

    ghost predicate Valid()
      reads Repr()
    {
      && engine.dev == c.dev && engine.Valid() && pool.Valid()
      && engine.kv != store && anchor == AnchorBase(c) && ExecOk(c, State())
    }

    /** The pool of `kvPages` pages with its top window anchored. */
    constructor (c: Cfg, engine: Engine, mem: Mem)
      requires engine.dev == c.dev && engine.Valid() && |mem| == c.kvPages
      ensures Valid() && this.c == c && this.engine == engine
      ensures fresh(store) && fresh(pool) && fresh(pool.refs)
      ensures State() == Exec(engine.kv.pages, mem, TakeRefs(seq(c.kvPages, _ => 0), AnchorBase(c), c.W()), None)
    {
      var store := new KvStore(mem);
      var pool := new Pool(c.kvPages);
      c.dev.PageFits(0, 0, 0);
      assert AllZero(pool.refs[..], AnchorBase(c), c.W());
      var top := pool.AllocFromEnd(c.W());
      this.c, this.engine, this.store, this.pool := c, engine, store, pool;
      this.anchor := top.value;
      this.singleton := None;
    }

    /** A segment of one window, if the pool has one. */
    method AllocSegment() returns (r: Option<nat>)
      requires Valid()
      modifies pool, pool.refs
      ensures Valid()
      ensures r.Some? <==> exists base :: AllZero(old(State()).refs, base, c.W())
      ensures r.Some? ==>
                && AllZero(old(State()).refs, r.value, c.W())
                && State() == old(State()).(refs := TakeRefs(old(State()).refs, r.value, c.W()))
                && (r.value > 0 ==> old(State()).refs[r.value - 1] > 0)
      ensures r.None? ==> State() == old(State())
    {
      c.dev.PageFits(0, 0, 0);
      r := pool.Alloc(c.W());
    }

    method FreeSegment(base: nat)
      requires Valid() && AllHeld(State().refs, base, c.W())
      modifies pool, pool.refs
      ensures Valid() && State() == old(State()).(refs := DropRefs(old(State()).refs, base, c.W()))
    {
      pool.Drop(base, c.W());
    }

    /** Copy `pages` pages per layer into the run at `base + layer0` of the shared store. */
    method CopyEngineToPool(base: nat, layer0: nat, pages: nat)
      requires Valid() && c.dev.RunFits(c.kvPages, base + layer0, pages) && c.dev.RunFits(c.W(), 0, pages)
      modifies store
      ensures Valid()
      ensures State() == old(State()).(store := c.dev.Copied(old(store.pages), engine.kv.pages, base + layer0, 0, pages, c.dev.m.nLayer))
    {
      CopyLayers(c.dev, store, engine.kv, base + layer0, 0, pages);
    }

    /** Copy `pages` pages per layer from the run at `base` of the shared store. */
    method CopyPoolToEngine(base: nat, pages: nat)
      requires Valid() && c.dev.RunFits(c.kvPages, base, pages) && c.dev.RunFits(c.W(), 0, pages)
      modifies engine.kv
      ensures Valid()
      ensures State() == old(State()).(engine := c.dev.Copied(old(engine.kv.pages), store.pages, 0, base, pages, c.dev.m.nLayer))
    {
      CopyLayers(c.dev, engine.kv, store, 0, base, pages);
    }

    method FlushSingleton()
      requires Valid()
      modifies this, store
      ensures Valid() && State() == Flush(c, old(State()))
    {
      if singleton.Some? {
        var q := singleton.value;
        singleton := None;
        c.dev.WindowRunFits(c.kvPages, q.base, 0, DivUp(q.kvLen));
        c.dev.WindowRunFits(c.W(), 0, 0, DivUp(q.kvLen));
        assert q.base + 0 == q.base;
        CopyEngineToPool(q.base, 0, DivUp(q.kvLen));
      }
    }

    method Prefill(ids: seq<Token>)
      requires Valid() && |ids| <= c.dev.pp * BLOCK
      modifies this, store, engine.kv
      ensures Valid() && State() == PrefillOp(c, old(State()), ids)
    {
      FlushSingleton();
      engine.PrefillBatch(ids);
    }

    /** Copy the cached run, then decode-step the rest of the prompt one token at a time. */
    method PrefillPrefixHit(base: nat, pages: nat, prompt: seq<Token>)
      requires Valid() && base + c.W() <= c.kvPages && pages <= c.dev.pp
      requires pages * BLOCK <= |prompt| <= c.dev.pp * BLOCK
      modifies this, store, engine.kv
      ensures Valid() && State() == PrefixHitOp(c, old(State()), base, pages, prompt)
    {
      FlushSingleton();
      c.dev.WindowRunFits(c.kvPages, base, 0, pages);
      c.dev.WindowRunFits(c.W(), 0, 0, pages);
      CopyPoolToEngine(base, pages);
      StepSuffix(engine, prompt, pages * BLOCK);
    }

    /** Flush the request's own singleton, reference the prefix runs, release the segment. */
    method RefillPrefix(id: Id, base: nat, pages: nat)
      requires Valid() && base + c.W() <= c.kvPages && pages <= c.dev.pp && AllHeld(State().refs, base, c.W())
      modifies this, store, pool, pool.refs
      ensures Valid() && State() == RefillOp(c, old(State()), id, base, pages)
    {
      var single := singleton;
      singleton := None;
      if single.Some? && single.value.id == id {
        c.dev.WindowRunFits(c.kvPages, base, 0, DivUp(single.value.kvLen));
        c.dev.WindowRunFits(c.W(), 0, 0, DivUp(single.value.kvLen));
        assert base + 0 == base;
        CopyEngineToPool(base, 0, DivUp(single.value.kvLen));
      }
      assert State() == TakeAndFlush(c, old(State()), id, base);
      RefRuns(base, pages);
      assert AllHeld(pool.refs[..], base, c.W());
      pool.Drop(base, c.W());
    }

    method RefRuns(base: nat, pages: nat)
      requires Valid() && pages <= c.dev.pp && AllHeld(State().refs, base, c.W())
      modifies pool.refs
      ensures Valid() && State() == old(State()).(refs := RefRun(c.dev, old(State()).refs, base, pages))
    {
      ghost var refs := pool.refs[..];
      SegmentRunHeld(c, refs, base, pages);
      RunsStart(c.dev, refs, base, pages);
      RunsEnd(c.dev, refs, base, pages);
      var li := 0;
      while li < c.dev.m.nLayer
        invariant li <= c.dev.m.nLayer && Valid()
        invariant pool.refs[..] == RefRunTo(c.dev, refs, base, pages, li)
      {
        StillHeld(c.dev, refs, base, pages, li);
        RefLayer(c.dev, refs, base, pages, li);
        pool.Ref(c.dev.PageOf(base, li, 0), pages);
        li := li + 1;
      }
    }

    /** Release an evicted run, layer by layer. */
    method UnrefPrefix(base: nat, pages: nat)
      requires Valid() && pages <= c.dev.pp && RunHeld(c.dev, State().refs, base, pages)
      modifies pool, pool.refs
      ensures Valid() && State() == old(State()).(refs := UnrefRun(c.dev, old(State()).refs, base, pages))
    {
      ghost var refs := pool.refs[..];
      RunsStart(c.dev, refs, base, pages);
      RunsEnd(c.dev, refs, base, pages);
      var li := 0;
      while li < c.dev.m.nLayer
        invariant li <= c.dev.m.nLayer && Valid()
        invariant pool.refs[..] == UnrefRunTo(c.dev, refs, base, pages, li)
      {
        StillHeld(c.dev, refs, base, pages, li);
        UnrefLayer(c.dev, refs, base, pages, li);
        pool.Drop(c.dev.PageOf(base, li, 0), pages);
        li := li + 1;
      }
    }

    method CommitStage(base: nat, start: nat, len: nat)
      requires Valid() && base + c.W() <= c.kvPages && start / BLOCK + DivUp(len) <= c.dev.pp
      modifies store
      ensures Valid() && State() == CommitOp(c, old(State()), base, start, len)
    {
      c.dev.WindowRunFits(c.kvPages, base, start / BLOCK, DivUp(len));
      c.dev.WindowRunFits(c.W(), 0, 0, DivUp(len));
      CopyEngineToPool(base, start / BLOCK, DivUp(len));
    }

    method AdoptSingleton(id: Id, base: nat, start: nat, len: nat)
      requires Valid() && base + c.W() <= c.kvPages && start + len <= c.dev.pp * BLOCK
      modifies this, engine.kv
      ensures Valid() && State() == AdoptOp(c, old(State()), id, base, start, len)
    {
      if start > 0 {
        c.dev.WindowRunFits(c.kvPages, base, 0, DivUp(start));
        c.dev.WindowRunFits(c.W(), 0, 0, DivUp(start));
        CopyPoolToEngine(base, DivUp(start));
      }
      singleton := Some(Single(id, base, start + len));
    }

    method DropSingleton(id: Id)
      requires Valid()
      modifies this
      ensures Valid() && State() == DropSingle(old(State()), id)
    {
      if singleton.Some? && singleton.value.id == id {
        singleton := None;
      }
    }

    method DecodeBatch(batch: seq<ExecReq>) returns (r: Option<seq<Vec>>)
      requires Valid() && BatchOk(c, batch)
      modifies this, engine.kv, store
      ensures Valid()
      ensures r.None? <==> batch == []
      ensures r.None? ==> State() == old(State())
      ensures r.Some? ==> (State(), r.value) == DecodeOp(c, old(State()), batch)
    {
      if batch == [] {
        return None;
      }
      if |batch| == 1 {
        var row := DecodeAlone(batch[0]);
        assert batch == [batch[0]];
        return Some([row]);
      }
      r := DecodeTogether(batch);
    }

    method DecodeAlone(q: ExecReq) returns (row: Vec)
      requires Valid() && BatchOk(c, [q])
      modifies this, engine.kv, store
      ensures Valid() && (State(), row) == DecodeOne(c, old(State()), q)
    {
      assert [q][0] == q;
      c.dev.WindowRunFits(c.kvPages, q.base, 0, DivUp(q.kvLen));
      c.dev.WindowRunFits(c.W(), 0, 0, DivUp(q.kvLen));
      if !(singleton.Some? && singleton.value.id == q.id) {
        CopyPoolToEngine(q.base, DivUp(q.kvLen));
      }
      var rows := [Row(q.token, q.pos, q.kvLen, 0)];
      var out := engine.BatchDecodeStep(store, rows);
      row := out.value[0];
      singleton := Some(Single(q.id, q.base, q.kvLen));
    }

    lemma RowsFit(batch: seq<ExecReq>, rows: seq<Row>)
      requires Valid() && BatchOk(c, batch) && rows == WithAnchor(c, batch)
      ensures forall b :: 0 <= b < |rows| ==> c.dev.Fits(store.pages, rows[b].base)
      ensures forall b :: 0 <= b < |rows| ==> engine.InRange(rows[b])
    {
      forall b | 0 <= b < |rows|
        ensures c.dev.Fits(store.pages, rows[b].base) && engine.InRange(rows[b])
      {
        if b < |batch| {
          assert batch[b].base + c.W() <= AnchorBase(c);
        }
      }
    }

    method DecodeTogether(batch: seq<ExecReq>) returns (r: Option<seq<Vec>>)
      requires Valid() && BatchOk(c, batch) && |batch| > 1
      modifies this, engine.kv, store
      ensures Valid() && r.Some? && (State(), r.value) == DecodeMany(c, old(State()), batch)
    {
      FlushSingleton();
      var rows := seq(|batch|, i requires 0 <= i < |batch| => Row(batch[i].token, batch[i].pos, batch[i].kvLen, batch[i].base))
                + [Row(0, 0, 1, anchor)];
      assert rows == WithAnchor(c, batch);
      RowsFit(batch, rows);
      var out := engine.BatchDecodeStep(store, rows);
      r := Some(out.value[..|batch|]);
      ghost var expected := DecodeMany(c, old(State()), batch);
      forall i | 0 <= i < |batch|
        ensures r.value[i] == expected.1[i]
      {
      }
      assert r.value == expected.1;
    }
  }
}
