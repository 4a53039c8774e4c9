/** What the global invariant means for the outside: isolation, KV coherence, conservation of
    pages, tokens and segments, the safety of the singleton, and where the chunked path
    breaks. */
module SchedTheorems {
  import opened Transformer
  import opened PagedKv
  import opened Requests
  import opened SchedState
  import opened ExecSteps
  import opened SchedSteps
  import opened SchedRelease
  import opened SchedPrefill
  import opened SchedDecode
  import opened SchedRuns

  /** `s` occurs in some run of the loop. */
  ghost predicate Reachable(c: Cfg, s: Sys) {
    exists s0, es :: Initial(c, s0) && Reaches(c, s0, es, s)
  }

  lemma ReachableInv(c: Cfg, s: Sys)
    requires Reachable(c, s)
    ensures Inv(c, s)
  {
    var s0, es :| Initial(c, s0) && Reaches(c, s0, es, s);
    RunKeeps(c, s0, es, s);
  }

  // ---- isolation ---------------------------------------------------------------------------------

  /** Whatever else arrives, aborts, finishes or is preempted: the tokens a request has
      received are a prefix of the tokens it would receive alone, and all of them once it is
      done. */
  lemma Isolation(c: Cfg, s: Sys, id: Id)
    requires Reachable(c, s) && !s.chunked && id in s.clients && !s.clients[id].restarted
    ensures var cl := s.clients[id];
            && |cl.job.prompt| > 0
            && cl.emitted <= SerialStream(c.Net(), Served(cl.job))
            && (cl.done ==> cl.emitted == SerialStream(c.Net(), Served(cl.job)))
            && ([] !in cl.job.stop ==> Served(cl.job) == cl.job)
  {
    ReachableInv(c, s);
    var cl := s.clients[id];
    assert ClientOk(c, cl);
    if [] !in cl.job.stop {
      NonEmptyId(cl.job.stop);
    }
  }

  /** Two schedules of the same job never show their clients different tokens. */
  lemma SchedulesAgree(c: Cfg, s: Sys, t: Sys, a: Id, b: Id)
    requires Reachable(c, s) && !s.chunked && a in s.clients && !s.clients[a].restarted
    requires Reachable(c, t) && !t.chunked && b in t.clients && !t.clients[b].restarted
    requires s.clients[a].job == t.clients[b].job
    ensures s.clients[a].emitted <= t.clients[b].emitted || t.clients[b].emitted <= s.clients[a].emitted
    ensures s.clients[a].done && t.clients[b].done ==> s.clients[a].emitted == t.clients[b].emitted
  {
    Isolation(c, s, a);
    Isolation(c, t, b);
  }

  // ---- KV coherence --------------------------------------------------------------------------------

  /** A decoding request's cells are those of a full forward over its own tokens, in the
      engine pool if it is the singleton and in its segment otherwise; only the newest cell
      may be pending. */
  lemma KvCoherent(c: Cfg, s: Sys, id: Id)
    requires Reachable(c, s) && !s.chunked && id in s.decoding
    ensures id in s.reqs && id in s.meta && id in s.segs && s.meta[id].genBase <= |s.meta[id].generated|
    ensures var h, n := Hist(s.meta[id]), s.reqs[id].cached;
            && |h| == n > 0
            && if IsSingle(s, id) then c.dev.Holds(s.x.engine, 0, h, n - 1)
               else c.dev.Holds(s.x.store, s.segs[id], h, n - 1)
  {
    ReachableInv(c, s);
    DecodingState(c, s, id);
    assert Lives(c, s, id, s.reqs[id].cached - 1);
  }

  /** The prefix cache agrees with recomputation, and a hit leaves the engine pool as a
      prefill of the whole prompt would. */
  lemma PrefixCacheAgrees(c: Cfg, s: Sys, key: Key, pages: nat, prompt: seq<Token>)
    requires Reachable(c, s) && !s.chunked && key in Cached(s)
    requires pages <= c.dev.pp && pages * BLOCK <= |prompt| <= c.dev.pp * BLOCK
    requires pages * BLOCK <= |key| && key[..pages * BLOCK] == prompt[..pages * BLOCK]
    ensures ExecOk(c, s.x) && Cached(s)[key] + c.W() <= c.kvPages
    ensures c.dev.Holds(s.x.store, Cached(s)[key], key, |key|)
    ensures c.dev.Holds(PrefixHitOp(c, s.x, Cached(s)[key], pages, prompt).engine, 0, prompt, |prompt|)
    ensures c.dev.Holds(PrefillOp(c, s.x, prompt).engine, 0, prompt, |prompt|)
  {
    ReachableInv(c, s);
    FlushStores(c, s);
    PrefixHitHolds(c, s.x, Cached(s)[key], pages, prompt, key);
    PrefillOpHolds(c, s.x, prompt);
  }

  // ---- the singleton ---------------------------------------------------------------------------------

  /** Page `p` has no holder at all. */
  ghost predicate Unheld(c: Cfg, refs: seq<nat>, segs: map<Id, nat>, cache: map<Key, nat>, p: nat) {
    && p < |refs| && refs[p] == 0
    && (forall id :: id in segs ==> !(segs[id] <= p < segs[id] + c.W()))
    && (forall k :: k in cache ==> !c.dev.InRun(cache[k], |k| / BLOCK, p))
  }

  lemma FreeUnheld(c: Cfg, owner: seq<Owner>, refs: seq<nat>, segs: map<Id, nat>, cache: map<Key, nat>, p: nat)
    requires OwnedBy(c, owner, refs, segs, cache) && p < c.kvPages && owner[p] == Free
    ensures Unheld(c, refs, segs, cache, p)
  {
    forall id | id in segs
      ensures !(segs[id] <= p < segs[id] + c.W())
    {
      assert owner[p] != Seg(id);
    }
    forall k | k in cache
      ensures !c.dev.InRun(cache[k], |k| / BLOCK, p)
    {
      assert owner[p] != Run(k);
    }
  }

  /** A singleton is the only decoding request, or it is stale: then nothing decodes, and
      the pages it will be flushed into hold no live or cached content. */
  lemma SingletonSafety(c: Cfg, s: Sys)
    requires Reachable(c, s) && s.x.single.Some?
    ensures var q := s.x.single.value;
            || (s.decoding == [q.id] && q.id in s.segs && q.base == s.segs[q.id])
            || (s.decoding == []
                && forall p :: q.base <= p < q.base + c.W() ==> Unheld(c, s.x.refs, s.segs, Cached(s), p))
  {
    ReachableInv(c, s);
    hide Reachable, Reqs, Ledger, Content, Isolated, Unheld;
    var q := s.x.single.value;
    if !Current(q, s.reqs, s.segs, s.decoding) {
      assert AllFree(s.owner, q.base, c.W());
      forall p | q.base <= p < q.base + c.W()
        ensures Unheld(c, s.x.refs, s.segs, Cached(s), p)
      {
        FreeUnheld(c, s.owner, s.x.refs, s.segs, Cached(s), p);
      }
    }
  }

  /** Neither the lone decode, which overwrites the engine pool without flushing, nor the
      refill of a finished request, which gives the singleton up before checking whose it is,
      can lose another request's KV. */
  lemma NobodyElseIsSingleton(c: Cfg, s: Sys, id: Id)
    requires Reachable(c, s) && id in s.decoding
    ensures s.x.single.Some? ==> s.x.single.value.id == id && s.decoding == [id]
  {
    hide Reachable, Reqs, Queues, Shape, Owned, Ledger, Content, Isolated, AllFree;
    ReachableInv(c, s);
  }

  /** Flushing, whatever the singleton is, keeps every decoding request and every cached run
      readable in the shared pool. */
  lemma FlushLosesNothing(c: Cfg, s: Sys)
    requires Reachable(c, s) && !s.chunked
    ensures ExecOk(c, s.x)
    ensures forall id :: id in s.decoding ==>
              && id in s.reqs && id in s.meta && id in s.segs && s.meta[id].genBase <= |s.meta[id].generated|
              && s.reqs[id].cached > 0
              && c.dev.Holds(Flush(c, s.x).store, s.segs[id], Hist(s.meta[id]), s.reqs[id].cached - 1)
    ensures forall k :: k in Cached(s) ==> c.dev.Holds(Flush(c, s.x).store, Cached(s)[k], k, |k|)
  {
    ReachableInv(c, s);
    FlushStores(c, s);
    forall id | id in s.decoding
      ensures id in s.reqs && id in s.meta && id in s.segs && s.meta[id].genBase <= |s.meta[id].generated|
      ensures s.reqs[id].cached > 0
    {
      DecodingState(c, s, id);
    }
  }

  // ---- conservation ------------------------------------------------------------------------------------

  ghost function SegHolders(c: Cfg, segs: map<Id, nat>, p: nat): set<Id> {
    set id | id in segs && segs[id] <= p < segs[id] + c.W()
  }

  ghost function RunHolders(c: Cfg, cache: map<Key, nat>, p: nat): set<Key> {
    set k | k in cache && c.dev.InRun(cache[k], |k| / BLOCK, p)
  }

  /** Everything that holds page `p`: live segments, cached runs and the anchor. */
  ghost function Holders(c: Cfg, s: Sys, p: nat): nat {
    |SegHolders(c, s.segs, p)| + |RunHolders(c, Cached(s), p)| + (if AnchorBase(c) <= p then 1 else 0)
  }

  lemma HoldersOwner(c: Cfg, owner: seq<Owner>, refs: seq<nat>, segs: map<Id, nat>, cache: map<Key, nat>, p: nat)
    requires OwnedBy(c, owner, refs, segs, cache) && p < c.kvPages
    ensures SegHolders(c, segs, p) == if owner[p].Seg? then {owner[p].id} else {}
    ensures RunHolders(c, cache, p) == if owner[p].Run? then {owner[p].key} else {}
    ensures refs[p] == (if owner[p] == Free then 0 else 1) && (owner[p] == Anchor <==> AnchorBase(c) <= p)
  {
    var o := owner[p];
    forall id ensures id in SegHolders(c, segs, p) <==> o == Seg(id) {
    }
    forall k ensures k in RunHolders(c, cache, p) <==> o == Run(k) {
    }
  }

  /** Page references are conserved: a page's count is the number of its holders, and no page
      ever has two. */
  lemma RefcountConservation(c: Cfg, s: Sys, p: nat)
    requires Reachable(c, s) && p < c.kvPages
    ensures |s.x.refs| == c.kvPages && s.x.refs[p] == Holders(c, s, p) <= 1
  {
    ReachableInv(c, s);
    HoldersOwner(c, s.owner, s.x.refs, s.segs, Cached(s), p);
    hide Reachable, Books, Ledger, Content, Isolated, SegHolders, RunHolders;
  }

  /** Tokens: what was dispatched and not returned is what the unreleased requests hold. */
  lemma TokensConserved(c: Cfg, s: Sys)
    requires Reachable(c, s)
    ensures s.dispatched - s.returned == Unreturned(s.reqs, s.arrivals)
    ensures NoDups(s.arrivals) && forall id :: id in s.arrivals <==> id in s.reqs
    ensures (forall id :: id in s.reqs ==> !s.reqs[id].Live()) ==> s.dispatched == s.returned
  {
    ReachableInv(c, s);
    if forall id :: id in s.reqs ==> !s.reqs[id].Live() {
      NothingOwed(s.reqs, s.arrivals);
    }
  }

  lemma {:induction false} NothingOwed(reqs: map<Id, Req>, ids: seq<Id>)
    requires forall id :: id in reqs ==> !reqs[id].Live()
    ensures Unreturned(reqs, ids) == 0
  {
    if ids != [] {
      NothingOwed(reqs, ids[..|ids| - 1]);
    }
  }

  /** Segments: exactly the chunked and the decoding requests have one, and each one taken is
      given back once. */
  lemma SegmentsConserved(c: Cfg, s: Sys, id: Id)
    requires Reachable(c, s) && id in s.reqs
    ensures id in s.segs <==> s.reqs[id].state == Chunked || s.reqs[id].state == Decode
    ensures id in s.clients && s.clients[id].allocs == s.clients[id].frees + (if id in s.segs then 1 else 0)
    ensures !s.reqs[id].Live() ==> s.clients[id].allocs == s.clients[id].frees
    ensures id in s.waiting ==> id !in s.decoding
    ensures NoDups(s.waiting) && NoDups(s.decoding)
    ensures s.reqs[id].Live() <==> id in s.waiting || id in s.decoding
  {
    ReachableInv(c, s);
    hide Reachable, Shape, SingleOk, Owned, Content, Isolated, Hist, StopMatcher.Tracks, NonEmpty;
    assert IdOk(c, s, id);
    assert Slots(s.clients, s.segs);
  }

  /** Exactly one reference less on every page of one window. */
  ghost predicate OneLess(refs: seq<nat>, refs': seq<nat>, base: nat, w: nat) {
    && |refs'| == |refs|
    && forall p :: 0 <= p < |refs| ==> refs[p] == refs'[p] + if base <= p < base + w then 1 else 0
  }

  lemma DropIsOneLess(c: Cfg, owner: seq<Owner>, refs: seq<nat>, segs: map<Id, nat>, cache: map<Key, nat>, id: Id)
    requires OwnedBy(c, owner, refs, segs, cache) && id in segs
    ensures OneLess(refs, DropRefs(refs, segs[id], c.W()), segs[id], c.W())
  {
    forall p | 0 <= p < |refs| && segs[id] <= p < segs[id] + c.W()
      ensures refs[p] == 1
    {
      assert owner[p] == Seg(id);
    }
  }

  /** Abort and preemption never touch the cache, and a release under a key the cache already
      covers adds no entry and no reference. */
  lemma ReleasesNeverGrow(c: Cfg, s: Sys, id: Id, prompt: seq<Token>, out: Outcome)
    requires Shape(c, s) && Owned(c, s) && id in s.reqs && id in s.clients && id in s.segs
    ensures Abort(c, s, id).cache == s.cache
    ensures s.reqs[id].Live() ==> OneLess(s.x.refs, Abort(c, s, id).x.refs, s.segs[id], c.W())
    ensures s.reqs[id].state == Decode ==>
              var r := PreemptVictim(c, s, id); r.cache == s.cache && OneLess(s.x.refs, r.x.refs, s.segs[id], c.W())
    ensures Covered(s, AlignedKey(prompt)) ==>
              var r := RefillRelease(c, s, id, prompt, out); r.cache == s.cache && OneLess(s.x.refs, r.x.refs, s.segs[id], c.W())
  {
    DropIsOneLess(c, s.owner, s.x.refs, s.segs, Cached(s), id);
    hide OneLess, Refill, Evict, DropRefs, OwnWindow;
  }

  // ---- addresses -----------------------------------------------------------------------------------------

  /** The pages a copy of `id`'s KV touches: the first `DivUp(cached)` of each layer run. */
  ghost predicate Touches(c: Cfg, s: Sys, id: Id, li: nat, p: nat) {
    && id in s.reqs && id in s.segs && li < c.dev.m.nLayer
    && c.dev.PageOf(s.segs[id], li, 0) <= p < c.dev.PageOf(s.segs[id], li, 0) + DivUp(s.reqs[id].cached)
  }

  /** A touched page lies in the request's own run of that layer, below the anchor. */
  lemma TouchesOwn(c: Cfg, s: Sys, id: Id, li: nat, p: nat)
    requires Books(c, s) && id in s.decoding && Touches(c, s, id, li, p)
    ensures p < c.dev.PageOf(s.segs[id], li, c.dev.pp) && s.segs[id] <= p < s.segs[id] + c.W() <= AnchorBase(c)
  {
    assert IdOk(c, s, id);
    hide SingleOk, NoDups, NonEmpty, MaxLen, StopMatcher.Tracks;
    assert s.reqs[id].cached <= c.dev.pp * BLOCK;
    var j := p - c.dev.PageOf(s.segs[id], li, 0);
    assert p == c.dev.PageOf(s.segs[id], li, j);
    c.dev.PageFits(s.segs[id], li, j);
  }

  /** Every page copied for a decoding request lies in that request's own run of that layer,
      below the anchor, so copies for different requests or layers never overlap. */
  lemma CopiesApart(c: Cfg, s: Sys, a: Id, l0: nat, b: Id, l1: nat, p: nat)
    requires Reachable(c, s) && a in s.decoding && b in s.decoding
    requires Touches(c, s, a, l0, p)
    ensures p < c.dev.PageOf(s.segs[a], l0, c.dev.pp) && p < AnchorBase(c)
    ensures Touches(c, s, b, l1, p) ==> a == b && l0 == l1
  {
    hide Reachable, Reqs, Queues, SingleOk, Ledger, Content, Isolated, OwnedBy;
    ReachableInv(c, s);
    TouchesOwn(c, s, a, l0, p);
    if Touches(c, s, b, l1, p) {
      TouchesOwn(c, s, b, l1, p);
      if a != b {
        SegsApart(c, s.owner, s.x.refs, s.segs, Cached(s), a, b);
      } else if l0 != l1 {
        c.dev.PagesApart(s.segs[a], l0, p - c.dev.PageOf(s.segs[a], l0, 0), l1, p - c.dev.PageOf(s.segs[a], l1, 0));
      }
    }
  }

  /** `pool_pages` as the batch step computes it: the largest segment extent of the batch. */
  function PoolPages(c: Cfg, rows: seq<Row>): nat {
    if rows == [] then 0
    else
      var prior, extent := PoolPages(c, rows[..|rows| - 1]), rows[|rows| - 1].base + c.W();
      if prior > extent then prior else extent
  }

  lemma {:induction false} PoolPagesBound(c: Cfg, rows: seq<Row>, bound: nat)
    requires forall r :: r in rows ==> r.base + c.W() <= bound
    ensures PoolPages(c, rows) <= bound
  {
    if rows != [] {
      PoolPagesBound(c, rows[..|rows| - 1], bound);
    }
  }

  lemma AnchorRules(c: Cfg, batch: seq<ExecReq>)
    requires BatchOk(c, batch)
    ensures PoolPages(c, WithAnchor(c, batch)) == c.kvPages
  {
    var rows := WithAnchor(c, batch);
    var rest := rows[..|rows| - 1];
    forall r | r in rest
      ensures r.base + c.W() <= AnchorBase(c)
    {
      var i :| 0 <= i < |rest| && rest[i] == r;
      assert batch[i].base + c.W() <= AnchorBase(c);
    }
    PoolPagesBound(c, rest, AnchorBase(c));
  }

  /** With the anchor in every batch the kernels derive the V region from the same constant,
      the size of the pool. */
  lemma PoolPagesFixed(c: Cfg, s: Sys)
    requires Reachable(c, s)
    ensures Books(c, s) && PoolPages(c, WithAnchor(c, Batch(c, s))) == c.kvPages
  {
    ReachableInv(c, s);
    BatchFits(c, s);
    hide Reachable, Reqs, Queues, Shape, SingleOk, Owned, Ledger, Content, Isolated, BatchOf;
    AnchorRules(c, Batch(c, s));
  }

  // ---- the chunked path ------------------------------------------------------------------------------------

  /** The segment holds the earlier chunks of `toks`, and the last one is about to be staged
      and adopted. */
  ghost predicate Adoptable(c: Cfg, x: Exec, base: nat, toks: seq<Token>, start: nat) {
    && ExecOk(c, x) && x.single == None && base + c.W() <= AnchorBase(c)
    && start < |toks| <= c.dev.pp * BLOCK
    && c.dev.Holds(x.store, base, toks, start)
  }

  /** Staging the chunk and adopting it leaves the engine pool holding the whole prompt. */
  ghost predicate Adopted(c: Cfg, x: Exec, id: Id, base: nat, toks: seq<Token>, start: nat)
    requires Adoptable(c, x, base, toks, start)
  {
    var staged := PrefillOp(c, x, toks[start..]);
    c.dev.Holds(AdoptOp(c, staged, id, base, start, |toks| - start).engine, 0, toks, |toks|)
  }

  /** The adopt of the last chunk `[start, n)` is right for every model and every state. */
  ghost predicate AdoptRight(start: nat, n: nat) {
    forall c: Cfg, x: Exec, id: Id, base: nat, toks: seq<Token> {:trigger Adopted(c, x, id, base, toks, start)} ::
      |toks| == n && Adoptable(c, x, base, toks, start) ==> Adopted(c, x, id, base, toks, start)
  }

  /** The staging prefill restarts at position 0 and the adopt then copies the earlier chunks
      over it, so the result is right exactly for the first chunk. */
  lemma AdoptRightIff(start: nat, n: nat)
    requires start < n && start % BLOCK == 0
    ensures AdoptRight(start, n) <==> start == 0
  {
    if start == 0 {
      forall c: Cfg, x: Exec, id: Id, base: nat, toks: seq<Token> {:trigger Adopted(c, x, id, base, toks, start)}
        | |toks| == n && Adoptable(c, x, base, toks, start)
        ensures Adopted(c, x, id, base, toks, start)
      {
        assert toks[start..] == toks;
        PrefillOpHolds(c, x, toks);
      }
    } else {
      AdoptWrong(start, n);
    }
  }

  const BLANK: KV := KV([], [])
  const INKED: KV := KV([1.0], [])

  function BlankMem(n: nat): (r: Mem)
    ensures |r| == n
  {
    seq(n, _ => seq(BLOCK, _ => BLANK))
  }

  /** One layer whose cells are all `INKED` once written, and a pool of two windows. */
  function InkModel(n: nat): Config {
    Config(Dev(Model(1, t => [], (l, x, p) => INKED, (l, x, p, w) => [], x => []), DivUp(n)),
           (p, r) => 0, 2 * DivUp(n), n)
  }

  lemma InkGood(n: nat)
    requires n > 0
    ensures InkModel(n).Good() && InkModel(n).W() == DivUp(n) && n <= DivUp(n) * BLOCK
  {
    var c := InkModel(n);
    assert c.dev.Off(1) == c.dev.Off(0) + DivUp(n);
  }

  /** A store whose first window is fully inked and whose second is blank. */
  function InkExec(n: nat): Exec {
    Exec(BlankMem(DivUp(n)), seq(DivUp(n), _ => seq(BLOCK, _ => INKED)) + BlankMem(DivUp(n)),
         seq(2 * DivUp(n), _ => 0), None)
  }

  lemma InkAdoptable(start: nat, n: nat, toks: seq<Token>)
    requires start < n == |toks|
    ensures InkModel(n).Good() && Adoptable(InkModel(n), InkExec(n), 0, toks, start)
  {
    InkGood(n);
    var c, x := InkModel(n), InkExec(n);
    forall li, t | 0 <= li < 1 && 0 <= t < start
      ensures c.dev.Cell(x.store, 0, li, t) == KvAt(c.dev.m, toks, li, t)
    {
      assert c.dev.PageOf(0, 0, t / BLOCK) == t / BLOCK;
    }
  }

  lemma AdoptWrong(start: nat, n: nat)
    requires 0 < start < n && start % BLOCK == 0
    ensures !AdoptRight(start, n)
  {
    var toks := seq(n, _ => 0);
    InkAdoptable(start, n, toks);
    InkGood(n);
    var c: Cfg, x := InkModel(n), InkExec(n);
    hide Dev.Holds, InkExec, InkModel;
    AdoptMisses(c, x, start, toks);
    assert !Adopted(c, x, 0, 0, toks, start);
  }

  /** The last position of the prompt is never written. */
  lemma AdoptMisses(c: Cfg, x: Exec, start: nat, toks: seq<Token>)
    requires 0 < start < |toks| && start % BLOCK == 0 && c == InkModel(|toks|) && x == InkExec(|toks|)
    requires Adoptable(c, x, 0, toks, start)
    ensures !Adopted(c, x, 0, 0, toks, start)
  {
    var n := |toks|;
    var last, ids := n - 1, toks[start..];
    var p := PrefillOp(c, x, ids);
    c.dev.PrefilledHidden(x.engine, ids, 1);
    c.dev.PageFits(0, 0, last / BLOCK);
    assert c.dev.Cell(p.engine, 0, 0, last) == c.dev.Cell(x.engine, 0, 0, last) == BLANK;
    c.dev.WindowRunFits(c.kvPages, 0, 0, DivUp(start));
    c.dev.WindowRunFits(c.W(), 0, 0, DivUp(start));
    c.dev.CopiedAt(p.engine, p.store, 0, 0, DivUp(start), 1);
    var e := c.dev.Copied(p.engine, p.store, 0, 0, DivUp(start), 1);
    hide Dev.Copied, Dev.Prefilled, Flush;
    var page := c.dev.PageOf(0, 0, last / BLOCK);
    assert page == last / BLOCK >= DivUp(start);
    assert !c.dev.InRun(0, DivUp(start), page);
    assert c.dev.Cell(e, 0, 0, last) == BLANK;
    assert KvAt(c.dev.m, toks, 0, last) == INKED;
  }
}
