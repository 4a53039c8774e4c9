/** Confirming one sampled token: the request goes on, or finishes and may feed the prefix
    cache.  Both keep the global invariant, and neither disturbs the rest of the batch. */
module SchedConfirm {
  import opened Transformer
  import opened PagedKv
  import opened Requests
  import opened SchedState
  import opened ExecSteps
  import opened SchedSteps
  import opened SchedRelease
  import opened SchedPrefill
  import opened SchedDecode

  // ---- eviction and refill of the cache ----------------------------------------------------------

  lemma EvictOwned(c: Cfg, owner: seq<Owner>, refs: seq<nat>, segs: map<Id, nat>, cache: map<Key, nat>, key: Key)
    requires OwnedBy(c, owner, refs, segs, cache) && key in cache
    ensures OwnedBy(c, OwnRun(c.dev, owner, cache[key], |key| / BLOCK, Free),
                    UnrefRun(c.dev, refs, cache[key], |key| / BLOCK), segs, cache - {key})
  {
    var base, n := cache[key], |key| / BLOCK;
    var r := OwnRun(c.dev, owner, base, n, Free);
    forall p, k | 0 <= p < |r|
      ensures r[p] == Run(k) <==> k in cache - {key} && c.dev.InRun((cache - {key})[k], |k| / BLOCK, p)
    {
      assert owner[p] == Run(k) <==> k in cache && c.dev.InRun(cache[k], |k| / BLOCK, p);
      assert owner[p] == Run(key) <==> c.dev.InRun(base, n, p);
    }
    forall p, o | 0 <= p < |r|
      ensures r[p] == Seg(o) <==> o in segs && segs[o] <= p < segs[o] + c.W()
    {
      assert owner[p] == Run(key) <==> c.dev.InRun(base, n, p);
    }
    forall p | 0 <= p < |r|
      ensures UnrefRun(c.dev, refs, base, n)[p] == if r[p] == Free then 0 else 1
      ensures r[p] == Anchor <==> AnchorBase(c) <= p
    {
      assert owner[p] == Run(key) <==> c.dev.InRun(base, n, p);
    }
  }

  lemma {:induction false} EvictKeeps(c: Cfg, s: Sys, keys: seq<Key>)
    requires Shape(c, s) && Owned(c, s)
    ensures Owned(c, Evict(c, s, keys))
    decreases |keys|
  {
    if keys != [] {
      var k := keys[0];
      if k in Cached(s) {
        EvictOwned(c, s.owner, s.x.refs, s.segs, Cached(s), k);
        var s1 := s.(cache := Some(Cached(s) - {k}),
                     x := s.x.(refs := UnrefRun(c.dev, s.x.refs, Cached(s)[k], |k| / BLOCK)),
                     owner := OwnRun(c.dev, s.owner, Cached(s)[k], |k| / BLOCK, Free));
        EvictShape(c, s, [k]);
        assert Evict(c, s1, []) == s1;
        assert Evict(c, s, [k]) == s1;
        EvictKeeps(c, s1, keys[1..]);
      } else {
        EvictKeeps(c, s, keys[1..]);
      }
    }
  }

  lemma RefillOwned(c: Cfg, owner: seq<Owner>, refs: seq<nat>, segs: map<Id, nat>, cache: map<Key, nat>, id: Id, key: Key)
    requires OwnedBy(c, owner, refs, segs, cache) && SegsFit(c, segs) && id in segs
    requires key !in cache && |key| / BLOCK <= c.dev.pp
    ensures var base, n := segs[id], |key| / BLOCK;
            OwnedBy(c, OwnRun(c.dev, OwnWindow(owner, base, c.W(), Free), base, n, Run(key)),
                    DropRefs(RefRun(c.dev, refs, base, n), base, c.W()), segs - {id}, cache[key := base])
  {
    var base, n := segs[id], |key| / BLOCK;
    var r := OwnRun(c.dev, OwnWindow(owner, base, c.W(), Free), base, n, Run(key));
    var cache' := cache[key := base];
    forall p | 0 <= p < |r| && c.dev.InRun(base, n, p)
      ensures base <= p < base + c.W()
    {
      assert base + 0 == base;
      c.dev.RunInWindow(base, 0, n, p);
    }
    forall p, k | 0 <= p < |r|
      ensures r[p] == Run(k) <==> k in cache' && c.dev.InRun(cache'[k], |k| / BLOCK, p)
    {
      assert owner[p] == Run(k) <==> k in cache && c.dev.InRun(cache[k], |k| / BLOCK, p);
      assert owner[p] == Seg(id) <==> base <= p < base + c.W();
    }
    forall p, o | 0 <= p < |r|
      ensures r[p] == Seg(o) <==> o in segs - {id} && segs[o] <= p < segs[o] + c.W()
    {
      assert owner[p] == Seg(o) <==> o in segs && segs[o] <= p < segs[o] + c.W();
      assert owner[p] == Seg(id) <==> base <= p < base + c.W();
    }
    forall p | 0 <= p < |r|
      ensures DropRefs(RefRun(c.dev, refs, base, n), base, c.W())[p] == if r[p] == Free then 0 else 1
      ensures r[p] == Anchor <==> AnchorBase(c) <= p
    {
      assert owner[p] == Seg(id) <==> base <= p < base + c.W();
    }
  }

  // ---- releasing a finished request ----------------------------------------------------------------

  /** `r` is `s` with `id`'s segment released, and the cache possibly one entry richer. */
  ghost predicate Released(c: Cfg, s: Sys, id: Id, key: Key, r: Sys) {
    && id in s.segs && id in s.clients
    && r == s.(x := r.x, owner := r.owner, cache := r.cache, segs := s.segs - {id},
               clients := s.clients[id := s.clients[id].(frees := s.clients[id].frees + 1)])
    && r.x.engine == s.x.engine
    && ((r.cache == s.cache && r.x.store == s.x.store && r.x.single == s.x.single && AllFree(r.owner, s.segs[id], c.W()))
        || (s.cache.Some? && r.x.single == None && r.x.store == TakeAndFlushStore(c, s, id)
            && key in Cached(r) && key !in Cached(s) && Cached(r)[key] == s.segs[id] && KeyOk(c, key)
            && forall k :: k in Cached(r) && k != key ==> k in Cached(s) && Cached(r)[k] == Cached(s)[k]))
  }

  ghost function TakeAndFlushStore(c: Cfg, s: Sys, id: Id): Mem {
    if ExecOk(c, s.x) && id in s.segs && s.segs[id] + c.W() <= c.kvPages
    then TakeAndFlush(c, s.x, id, s.segs[id]).store else s.x.store
  }

  /** Refilling after some entries were evicted. */
  lemma EvictedRefill(c: Cfg, s: Sys, s1: Sys, id: Id, key: Key)
    requires Shape(c, s1) && Owned(c, s1) && id in s.segs && id in s.clients && KeyOk(c, key) && key !in Cached(s)
    requires ExecOk(c, s.x) && SegsFit(c, s.segs) && s.cache.Some?
    requires s1 == s.(cache := s1.cache, x := s.x.(refs := s1.x.refs), owner := s1.owner)
    requires Cached(s1).Keys <= Cached(s).Keys && forall k :: k in Cached(s1) ==> Cached(s1)[k] == Cached(s)[k]
    ensures Released(c, s, id, key, Refill(c, s1, id, key))
    ensures Shape(c, Refill(c, s1, id, key)) && Owned(c, Refill(c, s1, id, key))
  {
    RefillOwned(c, s1.owner, s1.x.refs, s1.segs, Cached(s1), id, key);
    RefillRelated(c, s, s1, id, key);
    hide OwnRun, OwnWindow, DropRefs, RefRun, FlushTo, OwnedBy, Released;
  }

  lemma RefillRelated(c: Cfg, s: Sys, s1: Sys, id: Id, key: Key)
    requires Shape(c, s1) && id in s.segs && id in s.clients && KeyOk(c, key) && key !in Cached(s)
    requires ExecOk(c, s.x) && SegsFit(c, s.segs) && s.cache.Some?
    requires s1 == s.(cache := s1.cache, x := s.x.(refs := s1.x.refs), owner := s1.owner)
    requires Cached(s1).Keys <= Cached(s).Keys && forall k :: k in Cached(s1) ==> Cached(s1)[k] == Cached(s)[k]
    ensures Released(c, s, id, key, Refill(c, s1, id, key))
  {
    hide OwnRun, OwnWindow, DropRefs, RefRun;
  }

  lemma RefillReleased(c: Cfg, s: Sys, id: Id, prompt: seq<Token>, out: Outcome)
    requires Shape(c, s) && Owned(c, s) && id in s.segs && id in s.clients && |prompt| <= c.dev.pp * BLOCK
    ensures var r := RefillRelease(c, s, id, prompt, out);
            Released(c, s, id, AlignedKey(prompt), r) && Shape(c, r) && Owned(c, r)
  {
    var key := AlignedKey(prompt);
    if s.cache.None? || |prompt| / BLOCK < MIN_BLOCKS || Covered(s, key) || out.declined {
      FreeSegOwned(c, s, id);
    } else {
      EvictShape(c, s, out.evict);
      EvictKeeps(c, s, out.evict);
      var s1 := Evict(c, s, out.evict);
      assert key !in Cached(s) by {
        assert key in Cached(s) ==> key <= key;
      }
      EvictedRefill(c, s, s1, id, key);
      hide Evict, Refill, Released, Shape, Owned, FreeSeg, Covered;
    }
  }

  // ---- a finished request leaves ---------------------------------------------------------------------

  /** The state in which a terminal event has been confirmed but nothing released yet. */
  ghost function Finished(s: Sys, id: Id, r: Req, rows: seq<Vec>): Sys
    requires id in s.meta && id in s.clients
  {
    s.(reqs := s.reqs[id := r], dispatched := s.dispatched + 1, returned := s.returned + r.device,
       meta := s.meta[id := s.meta[id].(rows := rows)],
       clients := s.clients[id := s.clients[id].(done := true)])
  }

  ghost predicate Gone(c: Cfg, s: Sys, id: Id, q: Req, rows: seq<Vec>, key: Key, t: Sys, r: Sys)
    requires id in s.meta && id in s.clients
  {
    && Released(c, Finished(s, id, q, rows), id, key, t)
    && r == Forget(t, id)
  }

  lemma GoneReqs(c: Cfg, s: Sys, id: Id, q: Req, rows: seq<Vec>, key: Key, t: Sys, r: Sys)
    requires Queues(s) && Reqs(c, s) && id in s.decoding && id in s.meta && !q.Live()
    requires Gone(c, s, id, q, rows, key, t, r)
    ensures Queues(r) && Reqs(c, r)
  {
    hide Gone, Reqs;
    GoneLeft(c, s, id, q, rows, key, t, r);
    LeftReqs(c, s, r, id);
  }

  lemma GoneLeft(c: Cfg, s: Sys, id: Id, q: Req, rows: seq<Vec>, key: Key, t: Sys, r: Sys)
    requires Queues(s) && id in s.decoding && id in s.meta && !q.Live()
    requires Gone(c, s, id, q, rows, key, t, r)
    ensures Left(s, r, id) && !r.reqs[id].Live()
  {
    hide NoDups, AllFree, TakeAndFlushStore;
    assert r.meta == s.meta - {id};
  }

  lemma GoneLedger(c: Cfg, s: Sys, id: Id, q: Req, rows: seq<Vec>, key: Key, t: Sys, r: Sys)
    requires Queues(s) && Ledger(s) && id in s.segs && id in s.meta && !q.Live() && s.reqs[id].Live()
    requires q.device == s.reqs[id].device + 1
    requires Gone(c, s, id, q, rows, key, t, r)
    ensures Ledger(r)
  {
    UnreturnedUpdate(s.reqs, id, q, s.arrivals);
  }

  lemma GoneSingle(c: Cfg, s: Sys, id: Id, q: Req, rows: seq<Vec>, key: Key, t: Sys, r: Sys)
    requires Queues(s) && SingleOk(c, s) && id in s.decoding && id in s.segs && id in s.meta
    requires Gone(c, s, id, q, rows, key, t, r)
    ensures SingleOk(c, r)
  {
    if r.x.single.Some? {
      var g := s.x.single.value;
      assert Current(g, s.reqs, s.segs, s.decoding);
      assert s.decoding == [g.id] && g.id == id;
      assert r.decoding == Without([id], id) == [];
    }
  }

  /** The stored prefix of a complete request is exactly its page-aligned key. */
  lemma GoneEntry(c: Cfg, s: Sys, id: Id, key: Key)
    requires Books(c, s) && id in s.decoding && Full(c, s, id) && Ready(s, id)
    requires key <= s.meta[id].job.prompt
    ensures c.dev.Holds(TakeAndFlushStore(c, s, id), s.segs[id], key, |key|)
  {
    DecodingState(c, s, id);
    var h := Hist(s.meta[id]);
    assert h[..|key|] == key;
    var base := s.segs[id];
    if IsSingle(s, id) {
      FlushToHolds(c, s.x, base, s.x.single.value.kvLen, h);
    }
    assert c.dev.Holds(TakeAndFlushStore(c, s, id), base, h, |key|);
    assert key[..|key|] == key;
    c.dev.HoldsPrefix(TakeAndFlushStore(c, s, id), base, h, key, |key|);
  }

  lemma GoneCache(c: Cfg, s: Sys, id: Id, key: Key, k: Key)
    requires Books(c, s) && Owned(c, s) && CacheHolds(c, s) && id in s.decoding && id in s.segs
    requires Ready(s, id) && k in Cached(s)
    ensures c.dev.Holds(TakeAndFlushStore(c, s, id), Cached(s)[k], k, |k|)
  {
    DecodingState(c, s, id);
    if IsSingle(s, id) {
      var base := s.segs[id];
      FlushToElsewhere(c, s.x, base, s.x.single.value.kvLen);
      forall p | base <= p < base + c.W() && p < c.kvPages
        ensures !s.owner[p].Run?
      {
        assert s.owner[p] == Seg(id);
      }
      RunApart(c, s, k, s.x.store, TakeAndFlushStore(c, s, id), base);
    }
  }

  lemma GoneRuns(c: Cfg, s: Sys, id: Id, q: Req, rows: seq<Vec>, key: Key, t: Sys, r: Sys)
    requires Books(c, s) && Owned(c, s) && CacheHolds(c, s) && id in s.decoding && id in s.meta
    requires Full(c, s, id) && Ready(s, id) && key <= s.meta[id].job.prompt
    requires Gone(c, s, id, q, rows, key, t, r)
    ensures CacheHolds(c, r)
  {
    assert TakeAndFlushStore(c, Finished(s, id, q, rows), id) == TakeAndFlushStore(c, s, id);
    forall k | k in Cached(r)
      ensures c.dev.Holds(r.x.store, Cached(r)[k], k, |k|)
    {
      if r.cache == s.cache && r.x.store == s.x.store {
        assert c.dev.Holds(s.x.store, Cached(s)[k], k, |k|);
      } else if k == key {
        GoneEntry(c, s, id, key);
      } else {
        GoneCache(c, s, id, key, k);
      }
    }
  }

  /** A request that stays keeps its KV: nobody else was the singleton. */
  lemma GoneOther(c: Cfg, s: Sys, id: Id, q: Req, rows: seq<Vec>, key: Key, t: Sys, r: Sys, o: Id)
    requires Books(c, s) && id in s.decoding && id in s.meta && id in s.segs
    requires Gone(c, s, id, q, rows, key, t, r) && o in s.decoding && o != id
    ensures o in r.decoding && r.x.single == None && !IsSingle(s, o) && r.x.store == s.x.store
    ensures o in r.reqs && o in s.reqs && r.reqs[o] == s.reqs[o]
    ensures o in r.meta && o in s.meta && r.meta[o] == s.meta[o] && o in r.segs && o in s.segs && r.segs[o] == s.segs[o]
  {
    DecodingState(c, s, o);
    assert s.x.single == None;
  }

  lemma GoneContent(c: Cfg, s: Sys, id: Id, q: Req, rows: seq<Vec>, key: Key, t: Sys, r: Sys)
    requires Books(c, s) && Owned(c, s) && Content(c, s) && id in s.decoding && id in s.meta
    requires Full(c, s, id) && Ready(s, id) && key <= s.meta[id].job.prompt
    requires Gone(c, s, id, q, rows, key, t, r)
    ensures Content(c, r)
  {
    DecodingState(c, s, id);
    GoneRuns(c, s, id, q, rows, key, t, r);
    forall o | o in r.decoding && o in r.reqs && r.reqs[o].cached > 0
      ensures Lives(c, r, o, r.reqs[o].cached - 1)
    {
      GoneOther(c, s, id, q, rows, key, t, r, o);
      assert Lives(c, s, o, s.reqs[o].cached - 1);
    }
  }

  // ---- sampling --------------------------------------------------------------------------------------

  /** The sampler chain of a request that was never restarted is fed exactly the rows of the
      run alone. */
  lemma RowsNext(c: Cfg, s: Sys, id: Id, row: Vec)
    requires id in s.meta && id in s.clients && ChainOk(c, s.meta[id], s.clients[id]) && RowIs(c, s, id, row)
    ensures s.meta[id].rows + [row] == Rows(c.Net(), s.meta[id].job.prompt, s.meta[id].generated)
  {
    var e := s.meta[id];
    assert e.generated[0..] == e.generated == e.generated[..|e.generated|];
    var all := Rows(c.Net(), e.job.prompt, e.generated);
    assert all[|e.generated|] == Logits(c.dev.m, e.job.prompt + e.generated[..|e.generated|]);
    assert e.rows + [row] == all[..|e.generated|] + [all[|e.generated|]];
  }

  lemma RowsGrow(net: Net, prompt: seq<Token>, gen: seq<Token>, token: Token)
    requires |prompt| > 0
    ensures Rows(net, prompt, gen + [token])[..|gen| + 1] == Rows(net, prompt, gen)
  {
    var all, more := Rows(net, prompt, gen), Rows(net, prompt, gen + [token]);
    forall k | 0 <= k < |gen| + 1
      ensures all[k] == more[k]
    {
      assert (gen + [token])[..k] == gen[..k];
    }
  }

  /** What the state machine decides is what the serial run decides. */
  lemma StepDecides(c: Cfg, s: Sys, id: Id, row: Vec)
    requires Queues(s) && Reqs(c, s) && id in s.decoding && id in s.meta && id in s.clients && id in s.reqs
    requires ChainOk(c, s.meta[id], s.clients[id]) && ClientOk(c, s.clients[id]) && RowIs(c, s, id, row)
    requires s.reqs[id].state == Decode
    ensures var e := s.meta[id]; var t := c.sample(e.job.params, e.rows + [row]); var ev := s.reqs[id].DecodeStep(t).1;
            var net, job := c.Net(), Served(e.job);
            if ev == DecodeConfirmed(t) then
              SerialTail(net, job, e.generated) == [t] + SerialTail(net, job, e.generated + [t])
            else !ev.DecodeConfirmed? && SerialTail(net, job, e.generated) == []
  {
    assert IdOk(c, s, id);
    RowsNext(c, s, id, row);
    var e := s.meta[id];
    var t := c.sample(e.job.params, e.rows + [row]);
    assert t == NextToken(c.Net(), Served(e.job), e.generated);
    assert e.generated[0..] == e.generated;
    s.reqs[id].stop.PushDecides(e.generated, t);
  }

  // ---- a confirmed token -------------------------------------------------------------------------------

  /** `r` is `s` with `token` appended to the request. */
  ghost predicate Grown(s: Sys, id: Id, row: Vec, token: Token, q: Req, r: Sys)
    requires id in s.reqs && id in s.meta && id in s.clients
  {
    var e := s.meta[id];
    r == s.(reqs := s.reqs[id := q], dispatched := s.dispatched + 1,
            meta := s.meta[id := e.(rows := e.rows + [row], cur := token, generated := e.generated + [token])],
            clients := s.clients[id := s.clients[id].(emitted := s.clients[id].emitted + [token])])
  }

  lemma GrownId(c: Cfg, s: Sys, id: Id, row: Vec, token: Token, r: Sys)
    requires Queues(s) && Reqs(c, s) && id in s.decoding && id in s.reqs && id in s.meta && s.reqs[id].state == Decode
    requires s.reqs[id].DecodeStep(token).1 == DecodeConfirmed(token)
    requires Grown(s, id, row, token, s.reqs[id].DecodeStep(token).0, r)
    ensures id in r.clients && IdOk(c, r, id)
    ensures s.meta[id].genBase <= |s.meta[id].generated| && Hist(r.meta[id]) == Hist(s.meta[id]) + [token]
  {
    assert IdOk(c, s, id);
    var e := s.meta[id];
    var stream := e.generated[e.genBase..];
    assert r.meta[id].generated[e.genBase..] == stream + [token];
    assert Hist(r.meta[id]) == Hist(e) + [token];
    StepOk(c, s.reqs[id], e, s.clients[id].job, token, e.rows + [row]);
    hide ReqOk;
  }

  /** The invariant of a decoding request. */
  ghost predicate DecodeOk(c: Cfg, q: Req, e: Meta, job: Job) {
    && q.state == Decode && e.job == job && JobOk(c, job)
    && q.stop.patterns == NonEmpty(e.job.stop) && q.eos == e.job.eos && e.genBase <= |e.generated|
    && q.promptLen == |e.job.prompt| && q.maxOutput == e.job.maxTokens
    && q.cached == q.device == |Hist(e)| <= q.promptLen + q.maxOutput
    && e.cur == Hist(e)[q.cached - 1] && q.stop.Tracks(e.generated[e.genBase..])
  }

  lemma DecodeOkIs(c: Cfg, q: Req, e: Meta, job: Job)
    ensures q.state == Decode ==> (ReqOk(c, q, Some(e), job, false, true, true) <==> DecodeOk(c, q, e, job))
  {
    hide StopMatcher.Tracks, NonEmpty;
  }

  lemma HistGrows(e: Meta, e': Meta, token: Token)
    requires e.genBase <= |e.generated| && e'.job == e.job && e'.genBase == e.genBase && e'.generated == e.generated + [token]
    ensures e'.generated[e'.genBase..] == e.generated[e.genBase..] + [token] && Hist(e') == Hist(e) + [token]
  {
    assert (e.generated + [token])[e.genBase..] == e.generated[e.genBase..] + [token];
  }

  lemma NoEmptyPatterns(patterns: seq<seq<Token>>)
    ensures [] !in NonEmpty(patterns)
  {
  }

  lemma DecodeOkSteps(c: Cfg, q: Req, e: Meta, job: Job, token: Token, rows: seq<Vec>)
    requires DecodeOk(c, q, e, job) && q.DecodeStep(token).1 == DecodeConfirmed(token)
    ensures DecodeOk(c, q.DecodeStep(token).0, e.(rows := rows, cur := token, generated := e.generated + [token]), job)
    ensures q.DecodeStep(token).0.state == Decode
  {
    hide StopMatcher.Push, StopMatcher.Tracks, Hist, NonEmpty, AnySuffix, JobOk;
    NoEmptyPatterns(e.job.stop);
    HistGrows(e, e.(rows := rows, cur := token, generated := e.generated + [token]), token);
    q.stop.PushDecides(e.generated[e.genBase..], token);
  }

  /** A confirmed token keeps one request's part of the invariant. */
  lemma StepOk(c: Cfg, q: Req, e: Meta, job: Job, token: Token, rows: seq<Vec>)
    requires ReqOk(c, q, Some(e), job, false, true, true)
    requires q.state == Decode && q.DecodeStep(token).1 == DecodeConfirmed(token)
    ensures ReqOk(c, q.DecodeStep(token).0,
                  Some(e.(rows := rows, cur := token, generated := e.generated + [token])), job, false, true, true)
  {
    DecodeOkIs(c, q, e, job);
    DecodeOkIs(c, q.DecodeStep(token).0, e.(rows := rows, cur := token, generated := e.generated + [token]), job);
    assert DecodeOk(c, q, e, job);
    hide ReqOk, DecodeOk, Req.DecodeStep;
    DecodeOkSteps(c, q, e, job, token, rows);
  }

  lemma GrownBooks(c: Cfg, s: Sys, id: Id, row: Vec, token: Token, r: Sys)
    requires Books(c, s) && id in s.decoding && id in s.reqs && id in s.meta && s.reqs[id].state == Decode && Ready(s, id)
    requires s.reqs[id].DecodeStep(token).1 == DecodeConfirmed(token)
    requires Grown(s, id, row, token, s.reqs[id].DecodeStep(token).0, r)
    ensures Books(c, r)
  {
    assert Queues(r);
    GrownId(c, s, id, row, token, r);
    forall o | o in r.reqs && o != id
      ensures SameFor(s, r, o)
    {
    }
    ReqsFrame(c, s, r, id);
    DecodingState(c, s, id);
    if r.x.single.Some? {
      var g := r.x.single.value;
      assert Current(g, s.reqs, s.segs, s.decoding);
      assert g.id == id;
    }
  }

  lemma GrownLedger(c: Cfg, s: Sys, id: Id, row: Vec, token: Token, r: Sys)
    requires Queues(s) && Reqs(c, s) && Ledger(s) && id in s.decoding && id in s.reqs && id in s.meta
    requires s.reqs[id].state == Decode && s.reqs[id].DecodeStep(token).1 == DecodeConfirmed(token)
    requires Grown(s, id, row, token, s.reqs[id].DecodeStep(token).0, r)
    ensures Ledger(r)
  {
    assert IdOk(c, s, id);
    UnreturnedUpdate(s.reqs, id, s.reqs[id].DecodeStep(token).0, s.arrivals);
  }

  lemma GrownContent(c: Cfg, s: Sys, id: Id, row: Vec, token: Token, r: Sys)
    requires Books(c, s) && Content(c, s) && id in s.decoding && id in s.reqs && id in s.meta && s.reqs[id].state == Decode
    requires Full(c, s, id) && Ready(s, id)
    requires s.reqs[id].DecodeStep(token).1 == DecodeConfirmed(token)
    requires Grown(s, id, row, token, s.reqs[id].DecodeStep(token).0, r)
    ensures Content(c, r)
  {
    GrownId(c, s, id, row, token, r);
    DecodingState(c, s, id);
    var h, h' := Hist(s.meta[id]), Hist(r.meta[id]);
    assert h'[..|h|] == h == h[..|h|];
    forall o | o in r.decoding && o in r.reqs && r.reqs[o].cached > 0
      ensures Lives(c, r, o, r.reqs[o].cached - 1)
    {
      if o == id {
        if IsSingle(s, id) {
          c.dev.HoldsPrefix(s.x.engine, 0, h, h', |h|);
        } else {
          c.dev.HoldsPrefix(s.x.store, s.segs[id], h, h', |h|);
        }
      } else {
        assert Lives(c, s, o, s.reqs[o].cached - 1);
      }
    }
    assert CacheHolds(c, r);
  }

  lemma GrownIsolated(c: Cfg, s: Sys, id: Id, row: Vec, token: Token, r: Sys)
    requires Queues(s) && Reqs(c, s) && Isolated(c, s) && id in s.decoding && id in s.reqs && id in s.meta
    requires s.reqs[id].state == Decode && RowIs(c, s, id, row)
    requires token == c.sample(s.meta[id].job.params, s.meta[id].rows + [row])
    requires s.reqs[id].DecodeStep(token).1 == DecodeConfirmed(token)
    requires Grown(s, id, row, token, s.reqs[id].DecodeStep(token).0, r)
    ensures Isolated(c, r)
  {
    forall o | o in r.clients && !r.clients[o].restarted
      ensures ClientOk(c, r.clients[o]) && (o in r.meta ==> ChainOk(c, r.meta[o], r.clients[o]))
    {
      assert ClientOk(c, s.clients[o]);
      if o == id {
        GrownChain(c, s, id, row, token, r);
      }
    }
  }

  lemma GrownChain(c: Cfg, s: Sys, id: Id, row: Vec, token: Token, r: Sys)
    requires Queues(s) && Reqs(c, s) && id in s.decoding && id in s.reqs && id in s.meta
    requires ClientOk(c, s.clients[id]) && ChainOk(c, s.meta[id], s.clients[id])
    requires s.reqs[id].state == Decode && RowIs(c, s, id, row)
    requires token == c.sample(s.meta[id].job.params, s.meta[id].rows + [row])
    requires s.reqs[id].DecodeStep(token).1 == DecodeConfirmed(token)
    requires Grown(s, id, row, token, s.reqs[id].DecodeStep(token).0, r)
    ensures id in r.clients && ClientOk(c, r.clients[id]) && id in r.meta && ChainOk(c, r.meta[id], r.clients[id])
  {
    assert IdOk(c, s, id);
    StepDecides(c, s, id, row);
    RowsNext(c, s, id, row);
    RowsGrow(c.Net(), s.meta[id].job.prompt, s.meta[id].generated, token);
    ClientGrows(c, s.clients[id], token);
  }

  lemma ClientGrows(c: Cfg, cl: Client, token: Token)
    requires ClientOk(c, cl) && !cl.done
    requires var tail := SerialTail(c.Net(), Served(cl.job), cl.emitted);
             tail == [token] + SerialTail(c.Net(), Served(cl.job), cl.emitted + [token])
    ensures ClientOk(c, cl.(emitted := cl.emitted + [token]))
  {
    var rest := SerialTail(c.Net(), Served(cl.job), cl.emitted + [token]);
    assert cl.emitted + ([token] + rest) == (cl.emitted + [token]) + rest;
  }

  lemma GrownKeeps(c: Cfg, s: Sys, id: Id, row: Vec, token: Token, r: Sys)
    requires Inv(c, s) && id in s.decoding && id in s.reqs && id in s.meta && s.reqs[id].state == Decode && Ready(s, id)
    requires !s.chunked ==> RowIs(c, s, id, row)
    requires token == c.sample(s.meta[id].job.params, s.meta[id].rows + [row])
    requires s.reqs[id].DecodeStep(token).1 == DecodeConfirmed(token)
    requires Grown(s, id, row, token, s.reqs[id].DecodeStep(token).0, r)
    ensures Inv(c, r)
  {
    GrownBooks(c, s, id, row, token, r);
    GrownLedger(c, s, id, row, token, r);
    if !s.chunked {
      GrownContent(c, s, id, row, token, r);
      GrownIsolated(c, s, id, row, token, r);
    }
  }

  // ---- a terminal event --------------------------------------------------------------------------------

  lemma GoneIsolated(c: Cfg, s: Sys, id: Id, row: Vec, q: Req, key: Key, t: Sys, r: Sys)
    requires Queues(s) && Reqs(c, s) && Isolated(c, s) && id in s.decoding && id in s.reqs && id in s.meta
    requires s.reqs[id].state == Decode && RowIs(c, s, id, row)
    requires !s.reqs[id].DecodeStep(c.sample(s.meta[id].job.params, s.meta[id].rows + [row])).1.DecodeConfirmed?
    requires Gone(c, s, id, q, s.meta[id].rows + [row], key, t, r)
    ensures Isolated(c, r)
  {
    forall o | o in r.clients && !r.clients[o].restarted
      ensures ClientOk(c, r.clients[o]) && (o in r.meta ==> ChainOk(c, r.meta[o], r.clients[o]))
    {
      assert ClientOk(c, s.clients[o]);
      if o == id {
        assert IdOk(c, s, id);
        StepDecides(c, s, id, row);
      }
    }
  }

  lemma GoneBooks(c: Cfg, s: Sys, id: Id, q: Req, rows: seq<Vec>, key: Key, t: Sys, r: Sys)
    requires Books(c, s) && Ledger(s) && id in s.decoding && id in s.reqs && id in s.meta
    requires !q.Live() && q.device == s.reqs[id].device + 1
    requires Gone(c, s, id, q, rows, key, t, r) && Shape(c, r)
    ensures Books(c, r) && Ledger(r)
  {
    DecodingState(c, s, id);
    GoneReqs(c, s, id, q, rows, key, t, r);
    GoneLedger(c, s, id, q, rows, key, t, r);
    GoneSingle(c, s, id, q, rows, key, t, r);
  }

  /** A terminal event, wherever it comes from, dispatches one token and ends the request. */
  lemma StepEnds(r: Req, token: Token)
    requires r.state == Decode && !r.DecodeStep(token).1.DecodeConfirmed?
    ensures !r.DecodeStep(token).0.Live() && r.DecodeStep(token).0.device == r.cached + 1
  {
  }

  lemma GoneKeeps(c: Cfg, s: Sys, id: Id, row: Vec, q: Req, key: Key, t: Sys, r: Sys)
    requires Inv(c, s) && id in s.decoding && id in s.reqs && id in s.meta && s.reqs[id].state == Decode && Ready(s, id)
    requires !s.chunked ==> RowIs(c, s, id, row)
    requires !s.reqs[id].DecodeStep(c.sample(s.meta[id].job.params, s.meta[id].rows + [row])).1.DecodeConfirmed?
    requires q == s.reqs[id].DecodeStep(c.sample(s.meta[id].job.params, s.meta[id].rows + [row])).0
    requires Gone(c, s, id, q, s.meta[id].rows + [row], key, t, r)
    requires key <= s.meta[id].job.prompt && Shape(c, r) && Owned(c, r)
    ensures Inv(c, r)
  {
    DecodingState(c, s, id);
    assert IdOk(c, s, id);
    StepEnds(s.reqs[id], c.sample(s.meta[id].job.params, s.meta[id].rows + [row]));
    GoneBooks(c, s, id, q, s.meta[id].rows + [row], key, t, r);
    if !s.chunked {
      GoneContent(c, s, id, q, s.meta[id].rows + [row], key, t, r);
      GoneIsolated(c, s, id, row, q, key, t, r);
    }
  }
}
