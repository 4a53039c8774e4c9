/** The one release that may feed the prefix cache: when it does, the page-aligned prefix of the
    prompt stays where the request had it, and everything else goes back to the pool. */
module CacheRefill {
  import opened Transformer
  import opened PagedKv
  import opened Requests
  import opened SchedState
  import opened ExecSteps
  import opened SchedSteps
  import opened SchedConfirm

  // ---- eviction ------------------------------------------------------------------------------------

  /** Eviction takes exactly the named entries out. */
  lemma {:induction false} EvictRemoves(c: Cfg, s: Sys, keys: seq<Key>)
    ensures forall k :: k in Cached(Evict(c, s, keys)) <==> k in Cached(s) && k !in keys
    decreases |keys|
  {
    if keys != [] {
      var k0 := keys[0];
      var s1 :=
        if k0 in Cached(s) then
          s.(cache := Some(Cached(s) - {k0}),
             x := s.x.(refs := UnrefRun(c.dev, s.x.refs, Cached(s)[k0], |k0| / BLOCK)),
             owner := OwnRun(c.dev, s.owner, Cached(s)[k0], |k0| / BLOCK, Free))
        else s;
      EvictRemoves(c, s1, keys[1..]);
      assert keys == [k0] + keys[1..];
    }
  }

  // ---- one release -----------------------------------------------------------------------------------

  /** The cache takes the prompt's prefix: it is on, the prefix has two full blocks of 32 tokens,
      no key covers it, and the cache does not decline. */
  ghost predicate Feeds(s: Sys, prompt: seq<Token>, out: Outcome) {
    && s.cache.Some? && |prompt| / 32 >= 2 && !out.declined
    && !exists k :: k in s.cache.value && prompt[..|prompt| / 32 * 32] <= k
  }

  /** The cache after it took `key` at `base`: the new entry, and the old ones that were not
      evicted, where they were. */
  ghost predicate Fed(s: Sys, key: Key, base: nat, evicted: seq<Key>, r: Sys) {
    && s.cache.Some? && r.cache.Some?
    && (forall k :: k in r.cache.value <==> k == key || (k in s.cache.value && k !in evicted))
    && r.cache.value[key] == base
    && forall k :: k in r.cache.value && k != key ==> r.cache.value[k] == s.cache.value[k]
  }

  /** Of the window at `base`, the first `n` pages of each layer run have one reference and all
      others none. */
  ghost predicate Counted(c: Cfg, refs: seq<nat>, base: nat, n: nat) {
    && base + c.W() <= |refs|
    && forall li, j :: 0 <= li < c.dev.m.nLayer && 0 <= j < c.dev.pp ==>
         var p := c.dev.PageOf(base, li, j);
         p < |refs| && refs[p] == if j < n then 1 else 0
  }

  lemma ReleaseFeeds(c: Cfg, s: Sys, id: Id, prompt: seq<Token>, out: Outcome)
    requires Shape(c, s) && Owned(c, s) && id in s.segs && id in s.clients
    ensures var r := RefillRelease(c, s, id, prompt, out);
            && r.segs == s.segs - {id}
            && if Feeds(s, prompt, out) then Fed(s, prompt[..|prompt| / 32 * 32], s.segs[id], out.evict, r) else r.cache == s.cache
  {
    var key := AlignedKey(prompt);
    assert key == prompt[..|prompt| / 32 * 32];
    if Feeds(s, prompt, out) {
      assert !Covered(s, key);
      EvictShape(c, s, out.evict);
      EvictRemoves(c, s, out.evict);
      assert key !in Cached(s) by {
        assert key in Cached(s) ==> key <= key;
      }
      hide Evict, OwnRun, OwnWindow, DropRefs, RefRun, TakeAndFlush;
    } else if s.cache.Some? {
      assert Covered(s, key) <==> exists k :: k in s.cache.value && key <= k;
    }
  }

  /** Reference counts follow from who holds the pages: the key's run and nothing else of the
      window. */
  lemma WindowCounts(c: Cfg, s: Sys, id: Id, r: Sys, key: Key)
    requires Shape(c, s) && Owned(c, s) && Owned(c, r) && id in s.segs && r.segs == s.segs - {id}
    requires forall k :: k in Cached(r) && k != key ==> k in Cached(s) && Cached(r)[k] == Cached(s)[k]
    requires key !in Cached(s) && (key in Cached(r) ==> Cached(r)[key] == s.segs[id] && |key| / 32 <= c.dev.pp)
    ensures Counted(c, r.x.refs, s.segs[id], if key in Cached(r) then |key| / 32 else 0)
  {
    var base, n := s.segs[id], if key in Cached(r) then |key| / 32 else 0;
    forall li, j | 0 <= li < c.dev.m.nLayer && 0 <= j < c.dev.pp
      ensures var p := c.dev.PageOf(base, li, j); p < |r.x.refs| && r.x.refs[p] == if j < n then 1 else 0
    {
      PageCount(c, s, id, r, key, li, j);
    }
  }

  /** What is held after the release was held by the same holder before, but for the key's run. */
  lemma HolderBefore(c: Cfg, s: Sys, r: Sys, key: Key, p: nat)
    requires Owned(c, s) && Owned(c, r) && r.segs.Keys <= s.segs.Keys && (forall o :: o in r.segs ==> r.segs[o] == s.segs[o])
    requires forall k :: k in Cached(r) && k != key ==> k in Cached(s) && Cached(r)[k] == Cached(s)[k]
    requires p < c.kvPages
    ensures r.owner[p] in {Free, Run(key), s.owner[p]}
  {
    match r.owner[p]
    case Free =>
    case Anchor =>
      assert AnchorBase(c) <= p && s.owner[p] == Anchor;
    case Seg(o) =>
      assert o in r.segs && r.segs[o] <= p < r.segs[o] + c.W() && s.owner[p] == Seg(o);
    case Run(k) =>
      assert k in Cached(r) && c.dev.InRun(Cached(r)[k], |k| / BLOCK, p);
      assert k != key ==> s.owner[p] == Run(k);
  }

  lemma PageCount(c: Cfg, s: Sys, id: Id, r: Sys, key: Key, li: nat, j: nat)
    requires Shape(c, s) && Owned(c, s) && Owned(c, r) && id in s.segs && r.segs == s.segs - {id}
    requires forall k :: k in Cached(r) && k != key ==> k in Cached(s) && Cached(r)[k] == Cached(s)[k]
    requires key !in Cached(s) && (key in Cached(r) ==> Cached(r)[key] == s.segs[id] && |key| / 32 <= c.dev.pp)
    requires li < c.dev.m.nLayer && j < c.dev.pp
    ensures var p := c.dev.PageOf(s.segs[id], li, j);
            p < |r.x.refs| && r.x.refs[p] == if key in Cached(r) && j < |key| / 32 then 1 else 0
  {
    var base := s.segs[id];
    var p := c.dev.PageOf(base, li, j);
    c.dev.PageFits(base, li, j);
    assert s.owner[p] == Seg(id) && r.owner[p] != Seg(id);
    HolderBefore(c, s, r, key, p);
    assert r.owner[p] == Run(key) <==> key in Cached(r) && c.dev.InRun(base, |key| / BLOCK, p);
    if key in Cached(r) && c.dev.InRun(base, |key| / BLOCK, p) {
      var l, i :| 0 <= l < c.dev.m.nLayer && 0 <= i < |key| / BLOCK && p == c.dev.PageOf(base, l, i);
      if l != li || i != j {
        c.dev.PagesApart(base, li, j, l, i);
      }
    }
  }

  /** `p` is in the run of an entry of `s` that `r` no longer has. */
  ghost predicate Dropped(c: Cfg, s: Sys, r: Sys, p: nat) {
    exists k :: k in Cached(s) && k !in Cached(r) && c.dev.InRun(Cached(s)[k], |k| / 32, p)
  }

  /** Outside the window a page loses its reference exactly when its entry is gone. */
  lemma ElsewhereCount(c: Cfg, s: Sys, id: Id, r: Sys, key: Key, p: nat)
    requires Shape(c, s) && Owned(c, s) && Owned(c, r) && id in s.segs && r.segs == s.segs - {id}
    requires forall k :: k in Cached(r) && k != key ==> k in Cached(s) && Cached(r)[k] == Cached(s)[k]
    requires key !in Cached(s) && (key in Cached(r) ==> Cached(r)[key] == s.segs[id] && |key| / 32 <= c.dev.pp)
    requires p < c.kvPages && !(s.segs[id] <= p < s.segs[id] + c.W())
    ensures r.x.refs[p] == if Dropped(c, s, r, p) then 0 else s.x.refs[p]
  {
    HolderBefore(c, s, r, key, p);
    KeyElsewhere(c, s, id, r, key, p);
    DroppedIs(c, s, r, p);
    match s.owner[p]
    case Free =>
    case Anchor =>
      assert r.owner[p] == Anchor;
    case Seg(o) =>
      assert o != id && r.owner[p] == Seg(o);
    case Run(k) =>
      assert r.owner[p] == Run(k) <==> k in Cached(r) && c.dev.InRun(Cached(r)[k], |k| / BLOCK, p);
  }

  lemma KeyElsewhere(c: Cfg, s: Sys, id: Id, r: Sys, key: Key, p: nat)
    requires Owned(c, r) && id in s.segs && p < c.kvPages && !(s.segs[id] <= p < s.segs[id] + c.W())
    requires key in Cached(r) ==> Cached(r)[key] == s.segs[id] && |key| / 32 <= c.dev.pp
    ensures r.owner[p] != Run(key)
  {
    var base := s.segs[id];
    assert base + 0 == base;
    if key in Cached(r) && c.dev.InRun(base + 0, |key| / BLOCK, p) {
      c.dev.RunInWindow(base, 0, |key| / BLOCK, p);
    }
  }

  lemma DroppedIs(c: Cfg, s: Sys, r: Sys, p: nat)
    requires Owned(c, s) && p < c.kvPages
    ensures Dropped(c, s, r, p) <==> s.owner[p].Run? && s.owner[p].key !in Cached(r)
  {
    if s.owner[p].Run? {
      var k := s.owner[p].key;
      assert k in Cached(s) && c.dev.InRun(Cached(s)[k], |k| / BLOCK, p);
    }
    if k :| k in Cached(s) && k !in Cached(r) && c.dev.InRun(Cached(s)[k], |k| / 32, p) {
      assert s.owner[p] == Run(k);
    }
  }

  /** What the release of `id`'s segment leaves behind.  If the cache takes the prefix of the
      prompt, it maps it to where the segment began, the pages of that prefix keep one reference
      and the rest of the window is free; otherwise the cache is as it was and the whole window
      is free.  Elsewhere only the pages of evicted entries change. */
  ghost predicate LeftBehind(c: Cfg, s: Sys, id: Id, prompt: seq<Token>, out: Outcome, r: Sys)
    requires id in s.segs
  {
    var n := if Feeds(s, prompt, out) then |prompt| / 32 else 0;
    && (if n > 0 then Fed(s, prompt[..n * 32], s.segs[id], out.evict, r) else r.cache == s.cache)
    && Counted(c, r.x.refs, s.segs[id], n)
    && |s.x.refs| == |r.x.refs| == c.kvPages
    && forall p :: 0 <= p < c.kvPages && !(s.segs[id] <= p < s.segs[id] + c.W()) ==>
         r.x.refs[p] == if Dropped(c, s, r, p) then 0 else s.x.refs[p]
  }

  lemma CountsFollow(c: Cfg, s: Sys, id: Id, prompt: seq<Token>, out: Outcome, r: Sys)
    requires Shape(c, s) && Owned(c, s) && Owned(c, r) && id in s.segs && r.segs == s.segs - {id}
    requires |prompt| <= c.dev.pp * BLOCK
    requires if Feeds(s, prompt, out) then Fed(s, prompt[..|prompt| / 32 * 32], s.segs[id], out.evict, r) else r.cache == s.cache
    ensures LeftBehind(c, s, id, prompt, out, r)
  {
    var key := if Feeds(s, prompt, out) then prompt[..|prompt| / 32 * 32] else [];
    assert key !in Cached(s) by {
      assert key in Cached(s) ==> KeyOk(c, key) && key <= key;
    }
    hide OwnedBy, Shape, Dropped, Counted;
    WindowCounts(c, s, id, r, key);
    forall p | 0 <= p < c.kvPages && !(s.segs[id] <= p < s.segs[id] + c.W())
      ensures r.x.refs[p] == if Dropped(c, s, r, p) then 0 else s.x.refs[p]
    {
      ElsewhereCount(c, s, id, r, key, p);
    }
  }

  /** What a release leaves behind. */
  lemma ReleaseLeaves(c: Cfg, s: Sys, id: Id, prompt: seq<Token>, out: Outcome)
    requires Shape(c, s) && Owned(c, s) && id in s.segs && id in s.clients && |prompt| <= c.dev.pp * BLOCK
    ensures LeftBehind(c, s, id, prompt, out, RefillRelease(c, s, id, prompt, out))
  {
    RefillReleased(c, s, id, prompt, out);
    ReleaseFeeds(c, s, id, prompt, out);
    hide RefillRelease, OwnedBy, Released, Shape, LeftBehind;
    CountsFollow(c, s, id, prompt, out, RefillRelease(c, s, id, prompt, out));
  }

  // ---- using what was left -----------------------------------------------------------------------------

  lemma {:induction false} SuffixLeaves(dev: Dev, mem: Mem, toks: seq<Token>, from: nat, upto: nat, li: nat, t: nat)
    requires dev.Fits(mem, 0) && from <= upto <= |toks| && upto <= dev.pp * BLOCK && li < dev.m.nLayer && t < from
    ensures dev.Cell(StepTokens(dev, mem, toks, from, upto), 0, li, t) == dev.Cell(mem, 0, li, t)
    decreases upto
  {
    if from != upto {
      SuffixLeaves(dev, mem, toks, from, upto - 1, li, t);
      var before := StepTokens(dev, mem, toks, from, upto - 1);
      dev.SteppedCell(before, 0, toks[upto - 1], upto - 1, upto, dev.m.nLayer, li, t);
    }
  }

  lemma HitCells(c: Cfg, x: Exec, base: nat, pages: nat, prompt: seq<Token>, li: nat, t: nat)
    requires ExecOk(c, x) && base + c.W() <= c.kvPages && pages <= c.dev.pp
    requires pages * BLOCK <= |prompt| <= c.dev.pp * BLOCK && li < c.dev.m.nLayer && t < pages * BLOCK
    ensures c.dev.Cell(PrefixHitOp(c, x, base, pages, prompt).engine, 0, li, t) == c.dev.Cell(Flush(c, x).store, base, li, t)
  {
    var f := Flush(c, x);
    c.dev.WindowRunFits(c.kvPages, base, 0, pages);
    c.dev.WindowRunFits(c.W(), 0, 0, pages);
    var e := c.dev.Copied(f.engine, f.store, 0, base, pages, c.dev.m.nLayer);
    SuffixLeaves(c.dev, e, prompt, pages * BLOCK, |prompt|, li, t);
    c.dev.CopiedAt(f.engine, f.store, 0, base, pages, c.dev.m.nLayer);
    c.dev.PageFits(0, li, t / BLOCK);
    c.dev.PageFits(base, li, t / BLOCK);
    assert t / BLOCK < pages;
  }

  /** A hit for a prompt prefilled at once takes the cells of the prefix from the cached run,
      whatever they hold, instead of computing them; a hit for a part of a prompt is not used. */
  lemma HitReads(c: Cfg, s: Sys, id: Id, start: nat, end: nat, hit: Option<(Key, nat)>, li: nat, t: nat)
    requires Staging(c, s, id, start, end) && hit.Some?
    requires hit.value.0 in Cached(s) && Cached(s)[hit.value.0] + c.W() <= c.kvPages
    requires hit.value.1 <= c.dev.pp && hit.value.1 * BLOCK <= |s.meta[id].job.prompt|
    requires li < c.dev.m.nLayer && t < hit.value.1 * BLOCK
    ensures var r := Stage(c, s, id, start, end, hit).x.engine;
            if start == 0 && end == |s.meta[id].job.prompt| then
              c.dev.Cell(r, 0, li, t) == c.dev.Cell(Flush(c, s.x).store, Cached(s)[hit.value.0], li, t)
            else r == Stage(c, s, id, start, end, None).x.engine
  {
    if start == 0 && end == |s.meta[id].job.prompt| {
      HitCells(c, s.x, Cached(s)[hit.value.0], hit.value.1, s.meta[id].job.prompt, li, t);
    }
    hide PrefixHitOp, PrefillOp;
  }
}
