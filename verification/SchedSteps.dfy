/** The scheduler loop's transitions as functions on its state, one per method of the loop. */
module SchedSteps {
  import opened Transformer
  import opened PagedKv
  import opened Requests
  import opened SchedState
  import opened ExecSteps

  // ---- small pieces ------------------------------------------------------------------------

  function Without(q: seq<Id>, id: Id): (r: seq<Id>)
    ensures forall x :: x in r <==> x in q && x != id
    ensures |r| <= |q|
  {
    if q == [] then []
    else Without(q[..|q| - 1], id) + (if q[|q| - 1] == id then [] else [q[|q| - 1]])
  }

  /** Round a chunk end down to a page boundary; the final chunk is never rounded. */
  function AlignChunkEnd(end: nat, promptLen: nat): (r: nat)
    ensures r <= promptLen
    ensures end < promptLen ==> r % 32 == 0 && r <= end < r + 32
    ensures end >= promptLen ==> r == promptLen
  {
    if end >= promptLen then promptLen else end / BLOCK * BLOCK
  }

  function Insert(q: seq<Id>, id: Id): (r: seq<Id>)
    ensures multiset(r) == multiset(q) + multiset{id}
  {
    if q == [] then [id]
    else if q[|q| - 1] <= id then
      assert q == q[..|q| - 1] + [q[|q| - 1]];
      q + [id]
    else
      assert q == q[..|q| - 1] + [q[|q| - 1]];
      Insert(q[..|q| - 1], id) + [q[|q| - 1]]
  }

  /** The decode batch is ordered by request id. */
  function Sorted(q: seq<Id>): (r: seq<Id>)
    ensures multiset(r) == multiset(q)
  {
    if q == [] then []
    else
      assert q == q[..|q| - 1] + [q[|q| - 1]];
      Insert(Sorted(q[..|q| - 1]), q[|q| - 1])
  }

  function OwnWindow(owner: seq<Owner>, base: nat, w: nat, o: Owner): (r: seq<Owner>)
    ensures |r| == |owner|
  {
    seq(|owner|, p requires 0 <= p < |owner| => if base <= p < base + w then o else owner[p])
  }

  ghost function OwnRun(dev: Dev, owner: seq<Owner>, base: nat, n: nat, o: Owner): (r: seq<Owner>)
    ensures |r| == |owner|
  {
    seq(|owner|, p requires 0 <= p < |owner| => if dev.InRun(base, n, p) then o else owner[p])
  }

  // ---- commands ------------------------------------------------------------------------------

  function NewReq(job: Job): Req {
    Req(Waiting, 0, 0, 0, 0, StopMatcher(NonEmpty(job.stop), []), job.eos)
  }

  /** Request ids come from a bijection on arrival numbers, so a new one is always fresh. */
  function Submit(c: Cfg, s: Sys, id: Id, job: Job): Sys
    requires id !in s.reqs
  {
    if job.prompt == [] then s
    else
      s.(reqs := s.reqs[id := NewReq(job)],
         meta := s.meta[id := Meta(job, 0, [], [], 0)],
         waiting := s.waiting + [id],
         arrivals := s.arrivals + [id],
         clients := s.clients[id := Client(job, [], false, false, 0, 0)])
  }

  /** Plain release of a request's segment, if it has one. */
  function FreeSeg(c: Cfg, s: Sys, id: Id): Sys {
    if id in s.segs && id in s.clients then
      s.(x := s.x.(refs := DropRefs(s.x.refs, s.segs[id], c.W())),
         owner := OwnWindow(s.owner, s.segs[id], c.W(), Free),
         segs := s.segs - {id},
         clients := s.clients[id := s.clients[id].(frees := s.clients[id].frees + 1)])
    else s
  }

  /** Release the segment and forget the singleton if it is this request's. */
  function Unseat(c: Cfg, s: Sys, id: Id): Sys {
    var s1 := FreeSeg(c, s, id);
    s1.(x := DropSingle(s1.x, id))
  }

  /** Drop a finished request from the queues and forget its serving state. */
  function Forget(s: Sys, id: Id): Sys {
    s.(decoding := Without(s.decoding, id), waiting := Without(s.waiting, id), meta := s.meta - {id})
  }

  function Abort(c: Cfg, s: Sys, id: Id): Sys {
    if id !in s.reqs || !s.reqs[id].Live() then s
    else
      Forget(Unseat(c, s.(reqs := s.reqs[id := s.reqs[id].(state := Aborted)],
                          returned := s.returned + s.reqs[id].device), id), id)
  }

  // ---- admission and prefill -------------------------------------------------------------------

  /** A decoding request is a preemption victim: back to the head of the queue. */
  function PreemptVictim(c: Cfg, s: Sys, id: Id): Sys
    requires id in s.reqs && s.reqs[id].state == Decode
  {
    Unseat(c, s.(reqs := s.reqs[id := s.reqs[id].Preempt()], returned := s.returned + s.reqs[id].device,
                 decoding := Without(s.decoding, id), waiting := [id] + s.waiting), id)
  }

  /** A prefill assignment: the selected slice `[start, end)` and the two answers the loop does
      not compute itself, the segment the pool hands out and the prefix-cache hit. */
  datatype Assignment = Assignment(id: Id, start: nat, end: nat, alloc: Option<nat>, hit: Option<(Key, nat)>)

  /** The selector starts a slice at the confirmed cursor and stays inside the prompt; the
      pool only hands out free pages below the anchor; a hit is an aligned common prefix of
      the prompt and a cached key. */
  ghost predicate AssignmentOk(c: Cfg, s: Sys, a: Assignment) {
    && a.id in s.waiting && a.id in s.reqs && a.id in s.meta
    && a.start == s.reqs[a.id].cached < a.end <= |s.meta[a.id].job.prompt|
    && (a.alloc.Some? ==> a.alloc.value + c.W() <= c.kvPages
                          && forall p :: a.alloc.value <= p < a.alloc.value + c.W() && p < |s.x.refs| ==> s.x.refs[p] == 0)
    && (a.hit.Some? ==>
          var (k, n) := a.hit.value;
          && k in Cached(s) && 0 < n <= c.dev.pp && n * BLOCK <= |k|
          && n * BLOCK <= |s.meta[a.id].job.prompt| && k[..n * BLOCK] == s.meta[a.id].job.prompt[..n * BLOCK])
  }

  /** Take a segment and (re)start the request's prefill. */
  function StartOn(c: Cfg, s: Sys, id: Id, base: nat, chunk: nat): Sys
    requires id in s.reqs && id in s.meta && id in s.clients && chunk > 0
    requires s.reqs[id].state == Waiting || s.reqs[id].state == Preempted
  {
    var e, cl := s.meta[id], s.clients[id];
    s.(x := s.x.(refs := TakeRefs(s.x.refs, base, c.W())),
       owner := OwnWindow(s.owner, base, c.W(), Seg(id)),
       segs := s.segs[id := base],
       reqs := s.reqs[id := s.reqs[id].StartPrefill(|e.job.prompt|, e.job.maxTokens, chunk)],
       meta := s.meta[id := e.(genBase := |e.generated|)],
       clients := s.clients[id := cl.(allocs := cl.allocs + 1, restarted := cl.restarted || |e.generated| > 0)])
  }

  /** The request can be staged: its chunk is dispatched and its segment has room for it. */
  ghost predicate Staging(c: Cfg, s: Sys, id: Id, start: nat, end: nat) {
    && id in s.reqs && id in s.meta && id in s.segs
    && ExecOk(c, s.x) && s.segs[id] + c.W() <= c.kvPages
    && (s.reqs[id].state == Prefill || s.reqs[id].state == Chunked)
    && start < end <= |s.meta[id].job.prompt| <= c.dev.pp * BLOCK && start % BLOCK == 0
  }

  /** Put the chunk into the engine pool: by prefill, or from the cache. */
  ghost function Stage(c: Cfg, s: Sys, id: Id, start: nat, end: nat, hit: Option<(Key, nat)>): (r: Sys)
    requires Staging(c, s, id, start, end)
    requires hit.Some? ==> hit.value.0 in Cached(s) && Cached(s)[hit.value.0] + c.W() <= c.kvPages
                           && hit.value.1 <= c.dev.pp && hit.value.1 * BLOCK <= |s.meta[id].job.prompt|
    ensures Staging(c, r, id, start, end) && r == s.(x := r.x)
  {
    var prompt := s.meta[id].job.prompt;
    if hit.Some? && start == 0 && end == |prompt| then
      s.(x := PrefixHitOp(c, s.x, Cached(s)[hit.value.0], hit.value.1, prompt))
    else
      s.(x := PrefillOp(c, s.x, prompt[start..end]))
  }

  /** The prompt is complete: the request decodes from its last token on. */
  function Promote(s: Sys, id: Id): Sys
    requires id in s.meta && |s.meta[id].job.prompt| > 0
  {
    var prompt := s.meta[id].job.prompt;
    s.(decoding := if id in s.decoding then s.decoding else s.decoding + [id],
       waiting := Without(s.waiting, id),
       meta := s.meta[id := s.meta[id].(cur := prompt[|prompt| - 1])])
  }

  /** A lone decoder's KV stays in the engine pool; otherwise it goes to the segment. */
  ghost function Place(c: Cfg, s: Sys, id: Id, base: nat, start: nat, len: nat): Sys
    requires ExecOk(c, s.x) && base + c.W() <= c.kvPages
    requires start / BLOCK + DivUp(len) <= c.dev.pp && start + len <= c.dev.pp * BLOCK
  {
    s.(x := if |s.decoding| == 1 then AdoptOp(c, s.x, id, base, start, len) else CommitOp(c, s.x, base, start, len))
  }

  /** Confirm the staged chunk: an intermediate chunk is committed to the segment; a finished
      prompt is adopted if its request decodes alone and committed otherwise. */
  ghost function Settle(c: Cfg, s: Sys, id: Id, start: nat, end: nat): Sys
    requires Staging(c, s, id, start, end)
  {
    var base, len := s.segs[id], end - start;
    assert start / BLOCK + DivUp(len) <= c.dev.pp;
    var (r, ev) := s.reqs[id].Confirm();
    var s1 := s.(reqs := s.reqs[id := r]);
    if ev == ChunkConfirmed then s1.(x := CommitOp(c, s.x, base, start, len))
    else Place(c, Promote(s1, id), id, base, start, len)
  }

  /** Account for a dispatched chunk, and remember whether it was a whole prompt. */
  function Charge(s1: Sys, id: Id, start: nat, end: nat): (r: Sys)
    requires id in s1.meta && start <= end
    ensures r.x == s1.x && r.meta == s1.meta && r.reqs == s1.reqs && r.segs == s1.segs && r.cache == s1.cache
  {
    s1.(dispatched := s1.dispatched + (end - start),
        chunked := s1.chunked || !(start == 0 && end == |s1.meta[id].job.prompt|))
  }

  /** The chunk has been dispatched in state `s1`; stage it and confirm. */
  ghost function Dispatch(c: Cfg, s1: Sys, a: Assignment, end: nat): Sys
    requires Staging(c, s1, a.id, a.start, end)
    requires a.hit.Some? ==> a.hit.value.0 in Cached(s1) && Cached(s1)[a.hit.value.0] + c.W() <= c.kvPages
                             && a.hit.value.1 <= c.dev.pp && a.hit.value.1 * BLOCK <= |s1.meta[a.id].job.prompt|
  {
    Settle(c, Stage(c, Charge(s1, a.id, a.start, end), a.id, a.start, end, a.hit), a.id, a.start, end)
  }

  ghost function Assign(c: Cfg, s: Sys, a: Assignment): Sys
    requires Books(c, s) && AssignmentOk(c, s, a)
  {
    var id := a.id;
    var end := AlignChunkEnd(a.end, |s.meta[id].job.prompt|);
    assert IdOk(c, s, id);
    if end <= a.start then s
    else if s.reqs[id].state == Chunked then
      Dispatch(c, s.(reqs := s.reqs[id := s.reqs[id].DispatchChunk(end)]), a, end)
    else if a.alloc.None? then s
    else Dispatch(c, StartOn(c, s, id, a.alloc.value, end - a.start), a, end)
  }

  // ---- decode ------------------------------------------------------------------------------------

  /** What the environment contributes to one request of a decode step: whether sampling
      failed, whether the client still listens, and the cache's eviction decision. */
  datatype Outcome = Outcome(fault: bool, delivered: bool, evict: seq<Key>, declined: bool)

  /** Release the runs of evicted cache entries. */
  ghost function Evict(c: Cfg, s: Sys, keys: seq<Key>): Sys
    decreases |keys|
  {
    if keys == [] then s
    else
      var k := keys[0];
      var s1 :=
        if k in Cached(s) then
          s.(cache := Some(Cached(s) - {k}),
             x := s.x.(refs := UnrefRun(c.dev, s.x.refs, Cached(s)[k], |k| / BLOCK)),
             owner := OwnRun(c.dev, s.owner, Cached(s)[k], |k| / BLOCK, Free))
        else s;
      Evict(c, s1, keys[1..])
  }

  /** `take` then `filter`: the singleton is given up whoever it belongs to, but only flushed
      if it is this request's. */
  ghost function TakeAndFlush(c: Cfg, x: Exec, id: Id, base: nat): (r: Exec)
    requires ExecOk(c, x) && base + c.W() <= c.kvPages
    ensures ExecOk(c, r) && r.single == None && r.engine == x.engine && r.refs == x.refs
  {
    if x.single.Some? && x.single.value.id == id then FlushTo(c, x, base, x.single.value.kvLen)
    else x.(single := None)
  }

  /** Hand the prompt's page-aligned prefix to the cache and the rest back to the pool. */
  ghost function Refill(c: Cfg, s: Sys, id: Id, key: Key): Sys
    requires ExecOk(c, s.x) && id in s.segs && s.segs[id] + c.W() <= c.kvPages && id in s.clients
  {
    var base, n := s.segs[id], |key| / BLOCK;
    var x := TakeAndFlush(c, s.x, id, base);
    s.(cache := Some(Cached(s)[key := base]),
       x := x.(refs := DropRefs(RefRun(c.dev, x.refs, base, n), base, c.W())),
       owner := OwnRun(c.dev, OwnWindow(s.owner, base, c.W(), Free), base, n, Run(key)),
       segs := s.segs - {id},
       clients := s.clients[id := s.clients[id].(frees := s.clients[id].frees + 1)])
  }

  function AlignedKey(prompt: seq<Token>): (r: Key)
    ensures |r| % BLOCK == 0 && |r| / BLOCK == |prompt| / BLOCK && r <= prompt
  {
    prompt[..|prompt| / BLOCK * BLOCK]
  }

  ghost predicate Covered(s: Sys, key: Key) {
    exists k :: k in Cached(s) && key <= k
  }

  /** The single place where a normal completion may feed the prefix cache. */
  ghost function RefillRelease(c: Cfg, s: Sys, id: Id, prompt: seq<Token>, out: Outcome): Sys
    requires Shape(c, s) && id in s.segs && id in s.clients
  {
    var key := AlignedKey(prompt);
    if s.cache.None? || |prompt| / BLOCK < MIN_BLOCKS || Covered(s, key) || out.declined then FreeSeg(c, s, id)
    else
      var s1 := Evict(c, s, out.evict);
      EvictShape(c, s, out.evict);
      Refill(c, s1, id, key)
  }

  lemma {:induction false} EvictShape(c: Cfg, s: Sys, keys: seq<Key>)
    requires Shape(c, s)
    ensures var r := Evict(c, s, keys);
            && Shape(c, r)
            && r == s.(cache := r.cache, x := s.x.(refs := r.x.refs), owner := r.owner)
            && (r.cache.Some? <==> s.cache.Some?)
            && Cached(r).Keys <= Cached(s).Keys
            && forall k :: k in Cached(r) ==> Cached(r)[k] == Cached(s)[k]
    decreases |keys|
  {
    if keys != [] {
      var k := keys[0];
      var s1 :=
        if k in Cached(s) then
          s.(cache := Some(Cached(s) - {k}),
             x := s.x.(refs := UnrefRun(c.dev, s.x.refs, Cached(s)[k], |k| / BLOCK)),
             owner := OwnRun(c.dev, s.owner, Cached(s)[k], |k| / BLOCK, Free))
        else s;
      EvictShape(c, s1, keys[1..]);
    }
  }

  /** A finished request: accounting, release of the segment, removal from the queues. */
  ghost function Terminal(c: Cfg, s: Sys, id: Id, out: Outcome): Sys
    requires Shape(c, s) && id in s.reqs && id in s.meta && id in s.segs && id in s.clients
  {
    var s1 := s.(returned := s.returned + s.reqs[id].device,
                 clients := s.clients[id := s.clients[id].(done := true)]);
    Forget(RefillRelease(c, s1, id, s.meta[id].job.prompt, out), id)
  }

  /** Sample and confirm one request of the batch whose logits are `row`. */
  ghost function ConfirmOne(c: Cfg, s: Sys, id: Id, row: Vec, out: Outcome): Sys
    requires Shape(c, s) && s.clients.Keys == s.reqs.Keys
    requires id in s.reqs && s.reqs[id].state == Decode ==> id in s.meta && id in s.segs
  {
    if id !in s.reqs || s.reqs[id].state != Decode then s
    else if out.fault then Abort(c, s, id)
    else
      var e := s.meta[id];
      var rows := e.rows + [row];
      var token := c.sample(e.job.params, rows);
      var (r, ev) := s.reqs[id].DecodeStep(token);
      var s1 := s.(reqs := s.reqs[id := r], dispatched := s.dispatched + 1, meta := s.meta[id := e.(rows := rows)]);
      match ev
      case DecodeConfirmed(_) =>
        var s2 := s1.(meta := s.meta[id := e.(rows := rows, cur := token, generated := e.generated + [token])]);
        if out.delivered then
          s2.(clients := s.clients[id := s.clients[id].(emitted := s.clients[id].emitted + [token])])
        else Abort(c, s2, id)
      case _ => Terminal(c, s1, id, out)
  }

  /** The decode batch in id order. */
  function BatchOf(s: Sys, ids: seq<Id>): (r: seq<ExecReq>)
    requires forall id :: id in ids ==> id in s.meta && id in s.reqs && id in s.segs && s.reqs[id].cached > 0
    ensures |r| == |ids|
  {
    seq(|ids|, i requires 0 <= i < |ids| =>
      var id := ids[i];
      ExecReq(id, s.meta[id].cur, s.reqs[id].cached - 1, s.reqs[id].cached, s.segs[id]))
  }
}
