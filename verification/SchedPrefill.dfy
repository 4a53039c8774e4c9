/** Prefill assignments, including the prefix-cache hit, keep the global invariant. */
module SchedPrefill {
  import opened Transformer
  import opened PagedKv
  import opened Requests
  import opened SchedState
  import opened ExecSteps
  import opened SchedSteps
  import opened SchedRelease

  // ---- taking a segment --------------------------------------------------------------------------

  ghost predicate ZeroRefs(refs: seq<nat>, base: nat, n: nat) {
    forall p :: base <= p < base + n && p < |refs| ==> refs[p] == 0
  }

  lemma WindowPositive(c: Cfg)
    ensures c.W() > 0
  {
    c.dev.PageFits(0, 0, 0);
  }

  /** A segment the pool may hand out lies below the anchor and belongs to nobody. */
  lemma FreshWindow(c: Cfg, owner: seq<Owner>, refs: seq<nat>, segs: map<Id, nat>, cache: map<Key, nat>, base: nat)
    requires OwnedBy(c, owner, refs, segs, cache) && base + c.W() <= c.kvPages && ZeroRefs(refs, base, c.W())
    ensures base + c.W() <= AnchorBase(c) && AllFree(owner, base, c.W())
  {
    WindowPositive(c);
    var last := base + c.W() - 1;
    assert refs[last] == 0;
    assert owner[last] != Anchor;
  }

  lemma TakeOwned(c: Cfg, owner: seq<Owner>, refs: seq<nat>, segs: map<Id, nat>, cache: map<Key, nat>, id: Id, base: nat)
    requires OwnedBy(c, owner, refs, segs, cache) && base + c.W() <= AnchorBase(c) && AllFree(owner, base, c.W())
    requires id !in segs
    ensures OwnedBy(c, OwnWindow(owner, base, c.W(), Seg(id)), TakeRefs(refs, base, c.W()), segs[id := base], cache)
  {
    var r := OwnWindow(owner, base, c.W(), Seg(id));
    forall p, o | 0 <= p < |r|
      ensures r[p] == Seg(o) <==> o in segs[id := base] && segs[id := base][o] <= p < segs[id := base][o] + c.W()
    {
      assert owner[p] == Seg(o) <==> o in segs && segs[o] <= p < segs[o] + c.W();
    }
    forall p, k | 0 <= p < |r|
      ensures r[p] == Run(k) <==> k in cache && c.dev.InRun(cache[k], |k| / BLOCK, p)
    {
      assert owner[p] == Run(k) <==> k in cache && c.dev.InRun(cache[k], |k| / BLOCK, p);
    }
  }

  // ---- the step, field by field ------------------------------------------------------------------

  function EndOf(s: Sys, a: Assignment): nat
    requires a.id in s.meta
  {
    AlignChunkEnd(a.end, |s.meta[a.id].job.prompt|)
  }

  /** The assignment is not put off: the aligned chunk is not empty, and a request that needs
      a segment gets one. */
  ghost predicate Proceeds(c: Cfg, s: Sys, a: Assignment)
    requires AssignmentOk(c, s, a)
  {
    EndOf(s, a) > a.start && (s.reqs[a.id].state == Chunked || a.alloc.Some?)
  }

  /** `s1` is `s` with the chunk up to `end` dispatched, on a fresh segment if the request had
      none. */
  ghost predicate Entered(c: Cfg, s: Sys, a: Assignment, end: nat, s1: Sys) {
    var id := a.id;
    && id in s.reqs && id in s.meta && id in s.clients && id in s1.reqs && id in s1.segs
    && a.start < end <= |s.meta[id].job.prompt|
    && s1.waiting == s.waiting && s1.decoding == s.decoding && s1.arrivals == s.arrivals && s1.cache == s.cache
    && s1.dispatched == s.dispatched && s1.returned == s.returned && s1.chunked == s.chunked
    && s1.x.engine == s.x.engine && s1.x.store == s.x.store && s1.x.single == s.x.single
    && s1.meta == s.meta[id := s.meta[id].(genBase := |s.meta[id].generated|)]
    && s1.reqs == s.reqs[id := s1.reqs[id]]
    && s1.reqs[id].device == end && s1.reqs[id].promptLen == |s.meta[id].job.prompt|
    && s1.reqs[id].maxOutput == s.meta[id].job.maxTokens
    && s1.reqs[id].stop == s.reqs[id].stop && s1.reqs[id].eos == s.reqs[id].eos
    && (s1.reqs[id].state == Prefill || s1.reqs[id].state == Chunked)
    && (s1.reqs[id].state == Prefill ==> end == |s.meta[id].job.prompt|)
    && if s.reqs[id].state == Chunked then
         s1.segs == s.segs && s1.clients == s.clients && s1.owner == s.owner && s1.x.refs == s.x.refs
       else
         && a.alloc.Some?
         && s1.segs == s.segs[id := a.alloc.value]
         && s1.owner == OwnWindow(s.owner, a.alloc.value, c.W(), Seg(id))
         && s1.x.refs == TakeRefs(s.x.refs, a.alloc.value, c.W())
         && s1.clients == s.clients[id := s.clients[id].(allocs := s.clients[id].allocs + 1,
                                      restarted := s.clients[id].restarted || |s.meta[id].generated| > 0)]
  }

  ghost predicate HitFits(c: Cfg, s1: Sys, a: Assignment)
    requires a.id in s1.meta
  {
    a.hit.Some? ==> a.hit.value.0 in Cached(s1) && Cached(s1)[a.hit.value.0] + c.W() <= c.kvPages
                    && a.hit.value.1 <= c.dev.pp && a.hit.value.1 * BLOCK <= |s1.meta[a.id].job.prompt|
  }

  lemma EntryChunk(c: Cfg, s: Sys, a: Assignment, end: nat)
    requires a.id in s.reqs && a.id in s.meta && a.id in s.clients && a.id in s.segs && s.clients.Keys == s.reqs.Keys
    requires IdOk(c, s, a.id) && s.reqs[a.id].state == Chunked
    requires a.start == s.reqs[a.id].cached < end <= |s.meta[a.id].job.prompt|
    ensures Entered(c, s, a, end, s.(reqs := s.reqs[a.id := s.reqs[a.id].DispatchChunk(end)]))
  {
  }

  lemma EntryFresh(c: Cfg, s: Sys, a: Assignment, end: nat)
    requires a.id in s.reqs && a.id in s.meta && a.id in s.clients && a.alloc.Some?
    requires s.reqs[a.id].state == Waiting || s.reqs[a.id].state == Preempted
    requires a.start == 0 < end <= |s.meta[a.id].job.prompt|
    ensures Entered(c, s, a, end, StartOn(c, s, a.id, a.alloc.value, end))
  {
  }

  lemma EntryStaging(c: Cfg, s: Sys, a: Assignment, end: nat, s1: Sys)
    requires Shape(c, s) && AssignmentOk(c, s, a) && Entered(c, s, a, end, s1) && a.start % BLOCK == 0
    requires JobOk(c, s.meta[a.id].job)
    ensures Staging(c, s1, a.id, a.start, end) && HitFits(c, s1, a)
  {
  }

  lemma EntryFacts(c: Cfg, s: Sys, a: Assignment)
    requires Books(c, s) && AssignmentOk(c, s, a) && Proceeds(c, s, a)
    ensures a.id in s.reqs && a.id in s.meta && a.id in s.clients && IdOk(c, s, a.id) && JobOk(c, s.meta[a.id].job)
    ensures Shape(c, s) && s.clients.Keys == s.reqs.Keys && a.start % BLOCK == 0 && a.start == s.reqs[a.id].cached
    ensures a.start < EndOf(s, a) <= |s.meta[a.id].job.prompt|
    ensures if s.reqs[a.id].state == Chunked then a.id in s.segs && EndOf(s, a) <= s.reqs[a.id].promptLen
            else a.alloc.Some? && a.start == 0 && (s.reqs[a.id].state == Waiting || s.reqs[a.id].state == Preempted)
  {
    assert IdOk(c, s, a.id);
    hide Shape, SingleOk;
  }

  lemma EntryMore(c: Cfg, s: Sys, a: Assignment) returns (s1: Sys)
    requires Books(c, s) && AssignmentOk(c, s, a) && Proceeds(c, s, a) && s.reqs[a.id].state == Chunked
    ensures Entered(c, s, a, EndOf(s, a), s1)
    ensures Staging(c, s1, a.id, a.start, EndOf(s, a)) && HitFits(c, s1, a)
    ensures Assign(c, s, a) == Dispatch(c, s1, a, EndOf(s, a))
  {
    hide Books, AssignmentOk, Shape, IdOk, Dispatch, StartOn, Staging, HitFits, Entered;
    EntryFacts(c, s, a);
    s1 := s.(reqs := s.reqs[a.id := s.reqs[a.id].DispatchChunk(EndOf(s, a))]);
    EntryChunk(c, s, a, EndOf(s, a));
    EntryStaging(c, s, a, EndOf(s, a), s1);
  }

  lemma EntryNew(c: Cfg, s: Sys, a: Assignment) returns (s1: Sys)
    requires Books(c, s) && AssignmentOk(c, s, a) && Proceeds(c, s, a) && s.reqs[a.id].state != Chunked
    ensures Entered(c, s, a, EndOf(s, a), s1)
    ensures Staging(c, s1, a.id, a.start, EndOf(s, a)) && HitFits(c, s1, a)
    ensures Assign(c, s, a) == Dispatch(c, s1, a, EndOf(s, a))
  {
    hide Books, AssignmentOk, Shape, IdOk, Dispatch, StartOn, Staging, HitFits, Entered;
    EntryFacts(c, s, a);
    s1 := StartOn(c, s, a.id, a.alloc.value, EndOf(s, a) - a.start);
    EntryFresh(c, s, a, EndOf(s, a));
    EntryStaging(c, s, a, EndOf(s, a), s1);
  }

  lemma EntryOf(c: Cfg, s: Sys, a: Assignment) returns (s1: Sys)
    requires Books(c, s) && AssignmentOk(c, s, a) && Proceeds(c, s, a)
    ensures Entered(c, s, a, EndOf(s, a), s1)
    ensures Staging(c, s1, a.id, a.start, EndOf(s, a)) && HitFits(c, s1, a)
    ensures Assign(c, s, a) == Dispatch(c, s1, a, EndOf(s, a))
  {
    hide Books, Assign, Dispatch, Staging, HitFits, Entered;
    if s.reqs[a.id].state == Chunked {
      s1 := EntryMore(c, s, a);
    } else {
      s1 := EntryNew(c, s, a);
    }
  }

  /** `r` is `s1` with the chunk staged and confirmed. */
  ghost predicate Landed(s1: Sys, a: Assignment, end: nat, r: Sys) {
    var id := a.id;
    && id in s1.reqs && id in s1.meta && id in s1.segs && 0 < end <= |s1.meta[id].job.prompt|
    && r.x.refs == s1.x.refs && r.owner == s1.owner
    && r.segs == s1.segs && r.cache == s1.cache && r.arrivals == s1.arrivals && r.clients == s1.clients
    && r.returned == s1.returned && r.dispatched == s1.dispatched + (end - a.start)
    && r.chunked == (s1.chunked || a.start != 0 || end != |s1.meta[id].job.prompt|)
    && var prompt := s1.meta[id].job.prompt;
    if end < |prompt| then
      && r.reqs == s1.reqs[id := s1.reqs[id].(cached := end)]
      && r.meta == s1.meta && r.waiting == s1.waiting && r.decoding == s1.decoding && r.x.single == None
    else
      && r.reqs == s1.reqs[id := s1.reqs[id].(cached := end, state := Decode)]
      && r.meta == s1.meta[id := s1.meta[id].(cur := prompt[|prompt| - 1])]
      && r.waiting == Without(s1.waiting, id)
      && r.decoding == (if id in s1.decoding then s1.decoding else s1.decoding + [id])
      && r.x.single == if |r.decoding| == 1 then Some(Single(id, s1.segs[id], end)) else None
  }

  ghost predicate Settled(t: Sys, id: Id, end: nat, r: Sys)
    requires id in t.reqs && id in t.meta && id in t.segs && |t.meta[id].job.prompt| > 0
  {
    var prompt := t.meta[id].job.prompt;
    && r.x.refs == t.x.refs
    && r == t.(reqs := r.reqs, meta := r.meta, waiting := r.waiting, decoding := r.decoding, x := r.x)
    && if end < |prompt| then
         && r.reqs == t.reqs[id := t.reqs[id].(cached := end)]
         && r.meta == t.meta && r.waiting == t.waiting && r.decoding == t.decoding && r.x.single == None
       else
         && r.reqs == t.reqs[id := t.reqs[id].(cached := end, state := Decode)]
         && r.meta == t.meta[id := t.meta[id].(cur := prompt[|prompt| - 1])]
         && r.waiting == Without(t.waiting, id)
         && r.decoding == (if id in t.decoding then t.decoding else t.decoding + [id])
         && r.x.single == if |r.decoding| == 1 then Some(Single(id, t.segs[id], end)) else None
  }

  lemma SettleFields(c: Cfg, t: Sys, id: Id, start: nat, end: nat)
    requires Staging(c, t, id, start, end) && t.x.single == None
    requires t.reqs[id].device == end && t.reqs[id].promptLen == |t.meta[id].job.prompt|
    ensures Settled(t, id, end, Settle(c, t, id, start, end)) && ExecOk(c, Settle(c, t, id, start, end).x)
  {
  }

  lemma SettledLands(s1: Sys, a: Assignment, end: nat, t: Sys, r: Sys)
    requires a.id in s1.reqs && a.id in s1.meta && a.id in s1.segs && a.start < end <= |s1.meta[a.id].job.prompt|
    requires t == Charge(s1, a.id, a.start, end).(x := t.x)
    requires t.x.refs == s1.x.refs
    requires Settled(t, a.id, end, r)
    ensures Landed(s1, a, end, r)
  {
  }

  lemma StageFields(c: Cfg, s: Sys, id: Id, start: nat, end: nat, hit: Option<(Key, nat)>)
    requires Staging(c, s, id, start, end)
    requires hit.Some? ==> hit.value.0 in Cached(s) && Cached(s)[hit.value.0] + c.W() <= c.kvPages
                           && hit.value.1 <= c.dev.pp && hit.value.1 * BLOCK <= |s.meta[id].job.prompt|
    ensures Stage(c, s, id, start, end, hit).x.single == None
    ensures Stage(c, s, id, start, end, hit).x.refs == s.x.refs
    ensures Stage(c, s, id, start, end, hit).x.store == Flush(c, s.x).store
  {
  }

  lemma DispatchFields(c: Cfg, s1: Sys, a: Assignment, end: nat)
    requires Staging(c, s1, a.id, a.start, end) && HitFits(c, s1, a)
    requires s1.reqs[a.id].device == end && s1.reqs[a.id].promptLen == |s1.meta[a.id].job.prompt|
    ensures Landed(s1, a, end, Dispatch(c, s1, a, end)) && ExecOk(c, Dispatch(c, s1, a, end).x)
  {
    var s2 := Charge(s1, a.id, a.start, end);
    StageFields(c, s2, a.id, a.start, end, a.hit);
    var t := Stage(c, s2, a.id, a.start, end, a.hit);
    SettleFields(c, t, a.id, a.start, end);
    SettledLands(s1, a, end, t, Settle(c, t, a.id, a.start, end));
  }

  // ---- bookkeeping ---------------------------------------------------------------------------------

  lemma AssignQueues(c: Cfg, s: Sys, a: Assignment, end: nat, s1: Sys, r: Sys)
    requires Queues(s) && a.id in s.waiting && Entered(c, s, a, end, s1) && Landed(s1, a, end, r)
    requires a.id !in s.decoding
    ensures Queues(r)
  {
    WithoutNoDups(s.waiting, a.id);
  }

  lemma AssignNew(c: Cfg, s: Sys, a: Assignment, end: nat, s1: Sys, r: Sys)
    requires Queues(s) && Queues(r) && a.id in s.waiting && a.id !in s.decoding && IdOk(c, s, a.id)
    requires Entered(c, s, a, end, s1) && Landed(s1, a, end, r)
    requires end < |s.meta[a.id].job.prompt| ==> end % BLOCK == 0 && s1.reqs[a.id].state == Chunked
    requires s.reqs[a.id].state != Prefill && s.reqs[a.id].state != Decode
    ensures a.id in r.reqs && IdOk(c, r, a.id)
  {
    if end == |s.meta[a.id].job.prompt| {
      AssignDone(c, s, a, end, s1, r);
    } else {
      AssignMore(c, s, a, end, s1, r);
    }
  }

  lemma AssignMore(c: Cfg, s: Sys, a: Assignment, end: nat, s1: Sys, r: Sys)
    requires s.clients.Keys == s.reqs.Keys && r.clients.Keys == r.reqs.Keys
    requires a.id in s.waiting && a.id !in s.decoding && a.id in s.reqs && IdOk(c, s, a.id)
    requires Entered(c, s, a, end, s1) && Landed(s1, a, end, r)
    requires end < |s.meta[a.id].job.prompt| && end % BLOCK == 0 && s1.reqs[a.id].state == Chunked
    requires s.reqs[a.id].state != Prefill && s.reqs[a.id].state != Decode
    ensures IdOk(c, r, a.id)
  {
  }

  lemma AssignDone(c: Cfg, s: Sys, a: Assignment, end: nat, s1: Sys, r: Sys)
    requires s.clients.Keys == s.reqs.Keys && r.clients.Keys == r.reqs.Keys
    requires a.id in s.waiting && a.id !in s.decoding && a.id in s.reqs && IdOk(c, s, a.id)
    requires Entered(c, s, a, end, s1) && Landed(s1, a, end, r)
    requires end == |s.meta[a.id].job.prompt|
    requires s.reqs[a.id].state != Prefill && s.reqs[a.id].state != Decode
    ensures IdOk(c, r, a.id)
  {
    DoneFields(c, s, a, s1, r);
    assert JobOk(c, s.meta[a.id].job) && s.reqs[a.id].stop.buf == [];
    assert s.reqs[a.id].stop.patterns == NonEmpty(s.meta[a.id].job.stop);
    hide Entered, Landed, JobOk;
    DoneOk(c, r.reqs[a.id], r.meta[a.id]);
  }

  lemma DoneFields(c: Cfg, s: Sys, a: Assignment, s1: Sys, r: Sys)
    requires a.id in s.reqs && a.id in s.meta && a.id !in s.decoding && r.clients.Keys == r.reqs.Keys
    requires Entered(c, s, a, |s.meta[a.id].job.prompt|, s1)
    requires Landed(s1, a, |s.meta[a.id].job.prompt|, r)
    ensures a.id in r.reqs && a.id in r.meta && a.id in r.clients && a.id in s.clients
    ensures var q, e, p := r.reqs[a.id], r.meta[a.id], s.meta[a.id].job.prompt;
            && q == s.reqs[a.id].(state := Decode, promptLen := |p|, maxOutput := s.meta[a.id].job.maxTokens, cached := |p|, device := |p|)
            && |p| > 0 && e == s.meta[a.id].(genBase := |s.meta[a.id].generated|, cur := p[|p| - 1])
    ensures a.id in r.segs && a.id !in r.waiting && a.id in r.decoding && r.clients[a.id].job == s.clients[a.id].job
  {
  }

  /** A request whose whole prompt is cached and that has generated nothing since. */
  lemma DoneOk(c: Cfg, q: Req, e: Meta)
    requires JobOk(c, e.job) && e.genBase == |e.generated| && e.cur == e.job.prompt[|e.job.prompt| - 1]
    requires q.state == Decode && q.promptLen == q.cached == q.device == |e.job.prompt| && q.maxOutput == e.job.maxTokens
    requires q.stop.buf == [] && q.stop.patterns == NonEmpty(e.job.stop) && q.eos == e.job.eos
    ensures ReqOk(c, q, Some(e), e.job, false, true, true)
  {
    assert e.generated[e.genBase..] == [];
    assert Hist(e) == e.job.prompt;
    assert LastN([], if MaxLen(q.stop.patterns) > 0 then MaxLen(q.stop.patterns) - 1 else 0) == [];
  }

  lemma AssignSame(c: Cfg, s: Sys, a: Assignment, end: nat, s1: Sys, r: Sys, o: Id)
    requires s.clients.Keys == s.reqs.Keys && Entered(c, s, a, end, s1) && Landed(s1, a, end, r)
    requires o in s.reqs && o != a.id
    ensures SameFor(s, r, o)
  {
  }

  lemma AssignReqs(c: Cfg, s: Sys, a: Assignment, end: nat, s1: Sys, r: Sys)
    requires Queues(s) && Reqs(c, s) && Queues(r) && a.id in r.reqs && IdOk(c, r, a.id)
    requires Entered(c, s, a, end, s1) && Landed(s1, a, end, r)
    ensures Reqs(c, r)
  {
    forall o | o in r.reqs && o != a.id
      ensures SameFor(s, r, o)
    {
      AssignSame(c, s, a, end, s1, r, o);
    }
    ReqsFrame(c, s, r, a.id);
  }

  lemma AssignOwned(c: Cfg, s: Sys, a: Assignment, end: nat, s1: Sys, r: Sys)
    requires Shape(c, s) && Owned(c, s) && AssignmentOk(c, s, a) && (s.reqs[a.id].state != Chunked ==> a.id !in s.segs)
    requires Entered(c, s, a, end, s1) && Landed(s1, a, end, r) && ExecOk(c, r.x)
    ensures Owned(c, r) && Shape(c, r)
    ensures s.reqs[a.id].state != Chunked ==>
              a.alloc.value + c.W() <= AnchorBase(c) && AllFree(s.owner, a.alloc.value, c.W())
  {
    if s.reqs[a.id].state != Chunked {
      FreshWindow(c, s.owner, s.x.refs, s.segs, Cached(s), a.alloc.value);
      TakeOwned(c, s.owner, s.x.refs, s.segs, Cached(s), a.id, a.alloc.value);
    }
  }

  lemma AssignSingle(c: Cfg, s: Sys, a: Assignment, end: nat, s1: Sys, r: Sys)
    requires a.id !in s.decoding && Shape(c, r)
    requires Entered(c, s, a, end, s1) && Landed(s1, a, end, r)
    ensures SingleOk(c, r)
  {
    if r.x.single.Some? {
      assert r.decoding == [a.id];
      assert r.segs[a.id] + c.W() <= AnchorBase(c);
    }
  }

  lemma AssignLedger(c: Cfg, s: Sys, a: Assignment, end: nat, s1: Sys, r: Sys)
    requires NoDups(s.arrivals) && a.id in s.arrivals && a.id in s.reqs && Ledger(s) && s.reqs[a.id].device == a.start && s.reqs[a.id].Live()
    requires s.reqs[a.id].state == Chunked <==> a.id in s.segs
    requires Entered(c, s, a, end, s1) && Landed(s1, a, end, r)
    ensures Ledger(r)
  {
    assert r.reqs == s.reqs[a.id := r.reqs[a.id]];
    UnreturnedUpdate(s.reqs, a.id, r.reqs[a.id], s.arrivals);
  }

  // ---- isolation -------------------------------------------------------------------------------------

  lemma AssignIsolated(c: Cfg, s: Sys, a: Assignment, end: nat, s1: Sys, r: Sys)
    requires Isolated(c, s) && Entered(c, s, a, end, s1) && Landed(s1, a, end, r)
    requires s.reqs[a.id].state == Chunked ==> |s.meta[a.id].generated| == s.meta[a.id].genBase
    ensures Isolated(c, r)
  {
    forall o | o in r.clients && !r.clients[o].restarted
      ensures ClientOk(c, r.clients[o]) && (o in r.meta ==> ChainOk(c, r.meta[o], r.clients[o]))
    {
      assert o in s.clients && !s.clients[o].restarted;
      assert ClientOk(c, s.clients[o]);
      if o in r.meta {
        assert o in s.meta && ChainOk(c, s.meta[o], s.clients[o]);
      }
    }
  }

  // ---- content ---------------------------------------------------------------------------------------

  /** Everything readable is in the shared pool. */
  ghost predicate Stored(c: Cfg, s: Sys, store: Mem) {
    && (forall o :: o in s.decoding && o in s.reqs && s.reqs[o].cached > 0 ==>
          && o in s.meta && o in s.segs && s.meta[o].genBase <= |s.meta[o].generated|
          && c.dev.Holds(store, s.segs[o], Hist(s.meta[o]), s.reqs[o].cached - 1))
    && forall k :: k in Cached(s) ==> c.dev.Holds(store, Cached(s)[k], k, |k|)
  }

  /** Rewriting one window leaves a run owned by somebody else alone. */
  lemma RunApart(c: Cfg, s: Sys, k: Key, store: Mem, store': Mem, base: nat)
    requires Owned(c, s) && CacheFits(c, Cached(s)) && k in Cached(s) && |store| == |store'| == c.kvPages
    requires forall p :: 0 <= p < c.kvPages && !(base <= p < base + c.W()) ==> store'[p] == store[p]
    requires forall p :: base <= p < base + c.W() && p < c.kvPages ==> !s.owner[p].Run?
    requires c.dev.Holds(store, Cached(s)[k], k, |k|)
    ensures c.dev.Holds(store', Cached(s)[k], k, |k|)
  {
    assert DivUp(|k|) == |k| / BLOCK;
    forall p | 0 <= p < c.kvPages && c.dev.InRun(Cached(s)[k], DivUp(|k|), p)
      ensures store'[p] == store[p]
    {
      assert s.owner[p] == Run(k);
    }
    c.dev.HoldsFrame(store, store', Cached(s)[k], k, |k|);
  }

  lemma SegApart(c: Cfg, s: Sys, o: Id, store: Mem, store': Mem, base: nat, toks: seq<Token>, n: nat)
    requires Owned(c, s) && o in s.segs && s.segs[o] + c.W() <= c.kvPages && |store| == |store'| == c.kvPages
    requires forall p :: 0 <= p < c.kvPages && !(base <= p < base + c.W()) ==> store'[p] == store[p]
    requires forall p :: base <= p < base + c.W() && p < c.kvPages ==> s.owner[p] != Seg(o)
    requires c.dev.Holds(store, s.segs[o], toks, n)
    ensures c.dev.Holds(store', s.segs[o], toks, n)
  {
    forall p | 0 <= p < c.kvPages && c.dev.InRun(s.segs[o], DivUp(n), p)
      ensures store'[p] == store[p]
    {
      assert s.segs[o] + 0 == s.segs[o];
      c.dev.RunInWindow(s.segs[o], 0, DivUp(n), p);
      assert s.owner[p] == Seg(o);
    }
    c.dev.HoldsFrame(store, store', s.segs[o], toks, n);
  }

  /** Flushing moves the current singleton's KV to its segment, and a stale one nowhere that
      matters. */
  lemma FlushStores(c: Cfg, s: Sys)
    requires Books(c, s) && Owned(c, s) && Content(c, s)
    ensures Stored(c, s, Flush(c, s.x).store)
  {
    var f := Flush(c, s.x);
    if s.x.single.None? {
      forall o | o in s.decoding && o in s.reqs && s.reqs[o].cached > 0
        ensures o in s.meta && o in s.segs && s.meta[o].genBase <= |s.meta[o].generated|
        ensures c.dev.Holds(f.store, s.segs[o], Hist(s.meta[o]), s.reqs[o].cached - 1)
      {
        assert Lives(c, s, o, s.reqs[o].cached - 1);
      }
    } else {
      var q := s.x.single.value;
      FlushToElsewhere(c, s.x, q.base, q.kvLen);
      FlushCache(c, s, q);
      if Current(q, s.reqs, s.segs, s.decoding) {
        assert q.id in s.decoding;
        DecodingState(c, s, q.id);
        assert Lives(c, s, q.id, s.reqs[q.id].cached - 1);
        FlushToHolds(c, s.x, q.base, q.kvLen, Hist(s.meta[q.id]));
      }
    }
  }

  lemma FlushCache(c: Cfg, s: Sys, q: Single)
    requires Books(c, s) && Owned(c, s) && CacheHolds(c, s) && s.x.single == Some(q)
    ensures forall k :: k in Cached(s) ==> c.dev.Holds(Flush(c, s.x).store, Cached(s)[k], k, |k|)
  {
    FlushToElsewhere(c, s.x, q.base, q.kvLen);
    forall p | q.base <= p < q.base + c.W() && p < c.kvPages
      ensures !s.owner[p].Run?
    {
      if Current(q, s.reqs, s.segs, s.decoding) {
        assert s.owner[p] == Seg(q.id);
      }
    }
    forall k | k in Cached(s)
      ensures c.dev.Holds(Flush(c, s.x).store, Cached(s)[k], k, |k|)
    {
      RunApart(c, s, k, s.x.store, Flush(c, s.x).store, q.base);
    }
  }

  /** After staging the engine pool holds the whole prompt, whether it was prefilled or taken
      from the cache, and everything else is safe in the shared pool. */
  lemma StageHolds(c: Cfg, s: Sys, s2: Sys, id: Id, hit: Option<(Key, nat)>)
    requires Books(c, s) && Owned(c, s) && Content(c, s) && id in s2.meta
    requires s2.x.engine == s.x.engine && s2.x.store == s.x.store && s2.x.single == s.x.single && s2.cache == s.cache
    requires Staging(c, s2, id, 0, |s2.meta[id].job.prompt|)
    requires hit.Some? ==>
               var (k, n) := hit.value; var prompt := s2.meta[id].job.prompt;
               && k in Cached(s) && n <= c.dev.pp && n * BLOCK <= |k| && n * BLOCK <= |prompt|
               && k[..n * BLOCK] == prompt[..n * BLOCK]
    ensures hit.Some? ==> hit.value.0 in Cached(s2) && Cached(s2)[hit.value.0] + c.W() <= c.kvPages
    ensures var prompt := s2.meta[id].job.prompt; var x := Stage(c, s2, id, 0, |prompt|, hit).x;
            && x.store == Flush(c, s.x).store
            && c.dev.Holds(x.engine, 0, prompt, |prompt|)
  {
    var prompt := s2.meta[id].job.prompt;
    FlushStores(c, s);
    assert Flush(c, s2.x).store == Flush(c, s.x).store;
    if hit.Some? {
      var (k, n) := hit.value;
      PrefixHitHolds(c, s2.x, Cached(s)[k], n, prompt, k);
    } else {
      assert prompt[0..|prompt|] == prompt;
      PrefillOpHolds(c, s2.x, prompt);
    }
  }

  lemma StoredApart(c: Cfg, s: Sys, store: Mem, store': Mem, base: nat)
    requires Shape(c, s) && Owned(c, s) && Stored(c, s, store) && |store| == |store'| == c.kvPages
    requires AllFree(s.owner, base, c.W())
    requires forall p :: 0 <= p < c.kvPages && !(base <= p < base + c.W()) ==> store'[p] == store[p]
    ensures Stored(c, s, store')
  {
    forall o | o in s.decoding && o in s.reqs && s.reqs[o].cached > 0
      ensures c.dev.Holds(store', s.segs[o], Hist(s.meta[o]), s.reqs[o].cached - 1)
    {
      SegApart(c, s, o, store, store', base, Hist(s.meta[o]), s.reqs[o].cached - 1);
    }
    forall k | k in Cached(s)
      ensures c.dev.Holds(store', Cached(s)[k], k, |k|)
    {
      RunApart(c, s, k, store, store', base);
    }
  }

  /** Settling a whole prompt keeps it: in the engine pool if its request is alone, in its
      segment otherwise. */
  lemma SettleHolds(c: Cfg, s: Sys, s2: Sys, id: Id)
    requires Shape(c, s) && Owned(c, s) && id in s2.meta
    requires Staging(c, s2, id, 0, |s2.meta[id].job.prompt|) && s2.reqs[id].promptLen == |s2.meta[id].job.prompt|
    requires s2.reqs[id].device == |s2.meta[id].job.prompt|
    requires Stored(c, s, s2.x.store) && c.dev.Holds(s2.x.engine, 0, s2.meta[id].job.prompt, |s2.meta[id].job.prompt|)
    requires AllFree(s.owner, s2.segs[id], c.W()) && s2.segs[id] + c.W() <= AnchorBase(c)
    ensures var prompt := s2.meta[id].job.prompt; var r := Settle(c, s2, id, 0, |prompt|);
            && Stored(c, s, r.x.store)
            && if |r.decoding| == 1 then c.dev.Holds(r.x.engine, 0, prompt, |prompt|)
               else c.dev.Holds(r.x.store, s2.segs[id], prompt, |prompt|)
  {
    var prompt := s2.meta[id].job.prompt;
    var r := Settle(c, s2, id, 0, |prompt|);
    if |r.decoding| != 1 {
      CommitWhole(c, s2.x, s2.segs[id], prompt);
      CommitElsewhere(c, s2.x, s2.segs[id], 0, |prompt|);
      StoredApart(c, s, s2.x.store, r.x.store, s2.segs[id]);
    }
  }

  lemma AssignStored(c: Cfg, s: Sys, a: Assignment, s1: Sys)
    requires Books(c, s) && Owned(c, s) && Content(c, s) && AssignmentOk(c, s, a) && a.start == 0
    requires Entered(c, s, a, |s.meta[a.id].job.prompt|, s1) && s.reqs[a.id].state != Chunked
    requires Staging(c, s1, a.id, 0, |s.meta[a.id].job.prompt|) && HitFits(c, s1, a)
    requires AllFree(s.owner, a.alloc.value, c.W()) && a.alloc.value + c.W() <= AnchorBase(c)
    ensures var prompt := s.meta[a.id].job.prompt; var r := Dispatch(c, s1, a, |prompt|);
            && Stored(c, s, r.x.store)
            && if |r.decoding| == 1 then c.dev.Holds(r.x.engine, 0, prompt, |prompt|)
               else c.dev.Holds(r.x.store, a.alloc.value, prompt, |prompt|)
  {
    var prompt := s.meta[a.id].job.prompt;
    var s2 := Charge(s1, a.id, 0, |prompt|);
    FlushStores(c, s);
    StageHolds(c, s, s2, a.id, a.hit);
    SettleHolds(c, s, Stage(c, s2, a.id, 0, |prompt|, a.hit), a.id);
  }

  lemma AssignContent(c: Cfg, s: Sys, a: Assignment, s1: Sys, r: Sys)
    requires Queues(s) && a.id !in s.decoding && a.id in s.meta
    requires Entered(c, s, a, |s.meta[a.id].job.prompt|, s1) && Landed(s1, a, |s.meta[a.id].job.prompt|, r)
    requires s.reqs[a.id].state != Chunked
    requires Stored(c, s, r.x.store)
    requires var prompt := s.meta[a.id].job.prompt;
             if |r.decoding| == 1 then c.dev.Holds(r.x.engine, 0, prompt, |prompt|)
             else c.dev.Holds(r.x.store, a.alloc.value, prompt, |prompt|)
    ensures Content(c, r)
  {
    forall o | o in r.decoding && o in r.reqs && r.reqs[o].cached > 0
      ensures Lives(c, r, o, r.reqs[o].cached - 1)
    {
      if o == a.id {
        AssignLives(c, s, a, s1, r);
      } else {
        AssignOther(c, s, a, s1, r, o);
      }
    }
    hide Lives;
    assert CacheHolds(c, r);
  }

  lemma AssignLives(c: Cfg, s: Sys, a: Assignment, s1: Sys, r: Sys)
    requires a.id !in s.decoding && a.id in s.meta && a.id in s.reqs && s.reqs[a.id].state != Chunked
    requires Entered(c, s, a, |s.meta[a.id].job.prompt|, s1) && Landed(s1, a, |s.meta[a.id].job.prompt|, r)
    requires var prompt := s.meta[a.id].job.prompt;
             if |r.decoding| == 1 then c.dev.Holds(r.x.engine, 0, prompt, |prompt|)
             else c.dev.Holds(r.x.store, a.alloc.value, prompt, |prompt|)
    ensures a.id in r.reqs && r.reqs[a.id].cached > 0 && Lives(c, r, a.id, r.reqs[a.id].cached - 1)
  {
    var e := r.meta[a.id];
    assert e.generated[e.genBase..] == [];
    assert Hist(e) == e.job.prompt;
  }

  lemma AssignOther(c: Cfg, s: Sys, a: Assignment, s1: Sys, r: Sys, o: Id)
    requires a.id !in s.decoding && a.id in s.meta
    requires Entered(c, s, a, |s.meta[a.id].job.prompt|, s1) && Landed(s1, a, |s.meta[a.id].job.prompt|, r)
    requires s.reqs[a.id].state != Chunked && Stored(c, s, r.x.store)
    requires o in r.decoding && o != a.id && o in r.reqs && r.reqs[o].cached > 0
    ensures Lives(c, r, o, r.reqs[o].cached - 1)
  {
    assert o in s.decoding && o in s.reqs && s.reqs[o] == r.reqs[o];
    assert !IsSingle(r, o);
  }

  // ---- the whole step --------------------------------------------------------------------------------

  lemma AssignReady(c: Cfg, s: Sys, a: Assignment, end: nat, s1: Sys)
    requires Books(c, s) && AssignmentOk(c, s, a) && end == EndOf(s, a) > a.start && Entered(c, s, a, end, s1)
    ensures a.id !in s.decoding && a.id in s.arrivals && a.id in s.clients && IdOk(c, s, a.id)
    ensures s.reqs[a.id].state != Prefill && s.reqs[a.id].state != Decode && s.reqs[a.id].Live()
    ensures s.reqs[a.id].device == a.start && (s.reqs[a.id].state == Chunked <==> a.id in s.segs)
    ensures a.id in s1.reqs
    ensures end < |s.meta[a.id].job.prompt| ==> end % BLOCK == 0 && s1.reqs[a.id].state == Chunked
  {
    assert IdOk(c, s, a.id);
  }

  lemma AssignBooks(c: Cfg, s: Sys, a: Assignment, s1: Sys, r: Sys)
    requires Inv(c, s) && AssignmentOk(c, s, a) && Proceeds(c, s, a)
    requires Entered(c, s, a, EndOf(s, a), s1) && Landed(s1, a, EndOf(s, a), r) && ExecOk(c, r.x)
    ensures Books(c, r) && Owned(c, r) && Ledger(r)
    ensures s.reqs[a.id].state != Chunked ==>
              a.alloc.value + c.W() <= AnchorBase(c) && AllFree(s.owner, a.alloc.value, c.W())
  {
    hide Content, Isolated, Entered, Landed, OwnedBy, SingleOk, NoDups, SegsFit, CacheFits, ZeroRefs;
    var end := EndOf(s, a);
    AssignReady(c, s, a, end, s1);
    AssignQueues(c, s, a, end, s1, r);
    AssignNew(c, s, a, end, s1, r);
    AssignReqs(c, s, a, end, s1, r);
    AssignOwned(c, s, a, end, s1, r);
    AssignSingle(c, s, a, end, s1, r);
    AssignLedger(c, s, a, end, s1, r);
  }

  lemma AssignKeeps(c: Cfg, s: Sys, a: Assignment)
    requires Inv(c, s) && AssignmentOk(c, s, a)
    ensures Inv(c, Assign(c, s, a))
  {
    assert IdOk(c, s, a.id);
    if Proceeds(c, s, a) {
      var s1 := EntryOf(c, s, a);
      var r := Assign(c, s, a);
      DispatchFields(c, s1, a, EndOf(s, a));
      AssignBooks(c, s, a, s1, r);
      if !r.chunked {
        AssignStored(c, s, a, s1);
        AssignContent(c, s, a, s1, r);
        AssignIsolated(c, s, a, EndOf(s, a), s1, r);
      }
    }
  }
}
