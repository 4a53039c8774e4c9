/** Submission, abort and preemption keep the global invariant. */
module SchedRelease {
  import opened Transformer
  import opened PagedKv
  import opened Requests
  import opened SchedState
  import opened ExecSteps
  import opened SchedSteps

  // ---- queues and sums ---------------------------------------------------------------------

  lemma {:induction false} WithoutNoDups(q: seq<Id>, id: Id)
    requires NoDups(q)
    ensures NoDups(Without(q, id))
  {
    if q != [] {
      WithoutNoDups(q[..|q| - 1], id);
      assert q[|q| - 1] !in q[..|q| - 1];
    }
  }

  lemma {:induction false} UnreturnedUpdate(reqs: map<Id, Req>, id: Id, r: Req, ids: seq<Id>)
    requires NoDups(ids)
    ensures Unreturned(reqs[id := r], ids)
         == Unreturned(reqs, ids)
            + (if id in ids then (if r.Live() then r.device else 0)
                                 - (if id in reqs && reqs[id].Live() then reqs[id].device else 0)
               else 0)
  {
    if ids != [] {
      var rest, last := ids[..|ids| - 1], ids[|ids| - 1];
      UnreturnedUpdate(reqs, id, r, rest);
      assert last !in rest;
      assert ids == rest + [last];
    }
  }

  // ---- framing -------------------------------------------------------------------------------

  /** Nothing the per-request invariant looks at changes for `o`. */
  ghost predicate SameFor(s: Sys, r: Sys, o: Id) {
    && o in s.reqs && o in r.reqs && o in s.clients && o in r.clients
    && r.reqs[o] == s.reqs[o] && MetaOf(r, o) == MetaOf(s, o) && r.clients[o].job == s.clients[o].job
    && (o in r.waiting <==> o in s.waiting) && (o in r.decoding <==> o in s.decoding)
    && (o in r.segs <==> o in s.segs)
  }

  /** A step that touches one request keeps the others' invariant. */
  lemma ReqsFrame(c: Cfg, s: Sys, r: Sys, id: Id)
    requires s.clients.Keys == s.reqs.Keys && r.clients.Keys == r.reqs.Keys && Reqs(c, s)
    requires forall o :: o in r.reqs && o != id ==> SameFor(s, r, o)
    requires id in r.reqs ==> IdOk(c, r, id)
    ensures Reqs(c, r)
  {
    forall o | o in r.reqs
      ensures IdOk(c, r, o)
    {
      if o != id {
        assert SameFor(s, r, o);
        assert IdOk(c, s, o);
      }
    }
  }

  /** `o` still decodes, with its tokens and its KV where they were. */
  ghost predicate Kept(s: Sys, r: Sys, o: Id)
    requires o in s.reqs && o in s.meta && o in s.segs
  {
    && o in r.reqs && o in r.meta && o in r.segs
    && r.reqs[o] == s.reqs[o] && r.meta[o] == s.meta[o] && r.segs[o] == s.segs[o]
    && (IsSingle(s, o) ==> r.x.single == s.x.single)
    && (IsSingle(r, o) ==> r.x.single == s.x.single)
  }

  lemma DecodingState(c: Cfg, s: Sys, id: Id)
    requires Queues(s) && Reqs(c, s) && id in s.decoding
    ensures id in s.reqs && id in s.meta && id in s.segs && s.reqs[id].state == Decode && s.reqs[id].cached > 0
    ensures s.meta[id].genBase <= |s.meta[id].generated| && s.reqs[id].cached == |Hist(s.meta[id])|
  {
    assert id in s.meta;
    assert IdOk(c, s, id);
  }

  /** Decoding requests that survive a step with their KV untouched stay coherent. */
  lemma KeepsContent(c: Cfg, s: Sys, r: Sys)
    requires Queues(s) && Reqs(c, s) && Content(c, s)
    requires r.x.store == s.x.store && r.x.engine == s.x.engine && r.cache == s.cache
    requires forall o :: o in r.decoding ==> o in s.decoding
    requires forall o :: o in r.decoding && o in s.reqs && o in s.meta && o in s.segs ==> Kept(s, r, o)
    ensures Content(c, r)
  {
    forall o | o in r.decoding && o in r.reqs && r.reqs[o].cached > 0
      ensures Lives(c, r, o, r.reqs[o].cached - 1)
    {
      DecodingState(c, s, o);
      assert Kept(s, r, o);
      assert Lives(c, s, o, s.reqs[o].cached - 1);
    }
  }

  // ---- submission ------------------------------------------------------------------------------

  lemma SubmitQueues(c: Cfg, s: Sys, id: Id, job: Job)
    requires Queues(s) && id !in s.reqs && job.prompt != []
    ensures Queues(Submit(c, s, id, job))
  {
    assert id !in s.meta && id !in s.arrivals && id !in s.segs;
  }

  lemma SubmitNew(c: Cfg, s: Sys, id: Id, job: Job)
    requires Queues(s) && id !in s.reqs && job.prompt != [] && JobOk(c, job)
    ensures IdOk(c, Submit(c, s, id, job), id)
  {
    assert id !in s.meta && id !in s.segs && id !in s.decoding;
  }

  lemma SubmitReqs(c: Cfg, s: Sys, id: Id, job: Job)
    requires Queues(s) && Reqs(c, s) && id !in s.reqs && job.prompt != [] && JobOk(c, job)
    ensures Submit(c, s, id, job).clients.Keys == Submit(c, s, id, job).reqs.Keys && Reqs(c, Submit(c, s, id, job))
  {
    var r := Submit(c, s, id, job);
    SubmitNew(c, s, id, job);
    forall o | o in r.reqs && o != id
      ensures SameFor(s, r, o)
    {
    }
    ReqsFrame(c, s, r, id);
  }

  lemma SubmitLedger(c: Cfg, s: Sys, id: Id, job: Job)
    requires Books(c, s) && Ledger(s) && id !in s.reqs && job.prompt != []
    ensures Ledger(Submit(c, s, id, job))
  {
    var r := Submit(c, s, id, job);
    assert r.arrivals[..|r.arrivals| - 1] == s.arrivals;
    UnreturnedUpdate(s.reqs, id, NewReq(job), s.arrivals);
  }

  lemma SubmitIsolated(c: Cfg, s: Sys, id: Id, job: Job)
    requires Books(c, s) && Isolated(c, s) && id !in s.reqs && job.prompt != []
    ensures Isolated(c, Submit(c, s, id, job))
  {
    assert Rows(c.Net(), job.prompt, [])[..0] == [];
    assert SerialStream(c.Net(), Served(job)) == [] + SerialTail(c.Net(), Served(job), []);
  }

  lemma SubmitSingle(c: Cfg, s: Sys, id: Id, job: Job)
    requires SingleOk(c, s) && id !in s.reqs && job.prompt != []
    ensures SingleOk(c, Submit(c, s, id, job))
  {
  }

  lemma SubmitContent(c: Cfg, s: Sys, id: Id, job: Job)
    requires Books(c, s) && Content(c, s) && id !in s.reqs && job.prompt != []
    ensures Content(c, Submit(c, s, id, job))
  {
    KeepsContent(c, s, Submit(c, s, id, job));
  }

  lemma SubmitKeeps(c: Cfg, s: Sys, id: Id, job: Job)
    requires Inv(c, s) && id !in s.reqs && (job.prompt != [] ==> JobOk(c, job))
    ensures Inv(c, Submit(c, s, id, job))
  {
    var r := Submit(c, s, id, job);
    if job.prompt != [] {
      SubmitQueues(c, s, id, job);
      SubmitReqs(c, s, id, job);
      SubmitLedger(c, s, id, job);
      SubmitSingle(c, s, id, job);
      if !s.chunked {
        SubmitIsolated(c, s, id, job);
        SubmitContent(c, s, id, job);
      }
    }
  }

  // ---- plain release -----------------------------------------------------------------------------

  lemma FreeOwned(c: Cfg, owner: seq<Owner>, refs: seq<nat>, segs: map<Id, nat>, cache: map<Key, nat>, id: Id)
    requires OwnedBy(c, owner, refs, segs, cache) && SegsFit(c, segs) && id in segs
    ensures OwnedBy(c, OwnWindow(owner, segs[id], c.W(), Free), DropRefs(refs, segs[id], c.W()), segs - {id}, cache)
    ensures AllFree(OwnWindow(owner, segs[id], c.W(), Free), segs[id], c.W())
  {
    var base := segs[id];
    var r := OwnWindow(owner, base, c.W(), Free);
    forall p | base <= p < base + c.W()
      ensures owner[p] == Seg(id)
    {
    }
    forall p, k | 0 <= p < |r|
      ensures r[p] == Run(k) <==> k in cache && c.dev.InRun(cache[k], |k| / BLOCK, p)
    {
      assert owner[p] == Run(k) <==> k in cache && c.dev.InRun(cache[k], |k| / BLOCK, p);
    }
    forall p, o | 0 <= p < |r|
      ensures r[p] == Seg(o) <==> o in segs - {id} && segs[o] <= p < segs[o] + c.W()
    {
      assert owner[p] == Seg(o) <==> o in segs && segs[o] <= p < segs[o] + c.W();
    }
  }

  lemma FreeSegOwned(c: Cfg, s: Sys, id: Id)
    requires Owned(c, s) && Shape(c, s)
    ensures Owned(c, FreeSeg(c, s, id)) && Shape(c, FreeSeg(c, s, id))
    ensures id in s.segs && id in s.clients ==> AllFree(FreeSeg(c, s, id).owner, s.segs[id], c.W())
  {
    if id in s.segs && id in s.clients {
      FreeOwned(c, s.owner, s.x.refs, s.segs, Cached(s), id);
    }
  }

  /** A release never takes a page from anyone else. */
  lemma FreeSegStaysFree(c: Cfg, s: Sys, id: Id, base: nat, n: nat)
    requires AllFree(s.owner, base, n)
    ensures AllFree(FreeSeg(c, s, id).owner, base, n)
  {
  }

  // ---- leaving the system ----------------------------------------------------------------------------

  /** `id` leaves every queue; nothing else moves. */
  ghost predicate Left(s: Sys, r: Sys, id: Id) {
    && id in s.reqs && id in r.reqs && r.reqs == s.reqs[id := r.reqs[id]]
    && r.meta == s.meta - {id} && r.segs == s.segs - {id} && r.arrivals == s.arrivals
    && r.waiting == Without(s.waiting, id) && r.decoding == Without(s.decoding, id)
    && r.clients.Keys == s.clients.Keys && forall o :: o in s.clients ==> r.clients[o].job == s.clients[o].job
  }

  lemma LeftQueues(s: Sys, r: Sys, id: Id)
    requires Queues(s) && Left(s, r, id)
    ensures Queues(r)
  {
    WithoutNoDups(s.waiting, id);
    WithoutNoDups(s.decoding, id);
  }

  lemma LeftSame(s: Sys, r: Sys, id: Id, o: Id)
    requires Left(s, r, id) && o in r.reqs && o != id && o in s.clients
    ensures SameFor(s, r, o)
  {
  }

  lemma LeftGone(c: Cfg, s: Sys, r: Sys, id: Id)
    requires Queues(s) && Left(s, r, id) && !r.reqs[id].Live()
    ensures id in r.clients && IdOk(c, r, id)
  {
    hide NoDups;
  }

  lemma LeftReqs(c: Cfg, s: Sys, r: Sys, id: Id)
    requires Queues(s) && Reqs(c, s) && Left(s, r, id) && !r.reqs[id].Live()
    ensures Queues(r) && Reqs(c, r)
  {
    LeftQueues(s, r, id);
    forall o | o in r.reqs && o != id
      ensures SameFor(s, r, o)
    {
      LeftSame(s, r, id, o);
    }
    LeftGone(c, s, r, id);
    hide IdOk, SameFor;
    ReqsFrame(c, s, r, id);
  }

  // ---- abort ---------------------------------------------------------------------------------------

  lemma {:induction false} WithoutSelf(q: seq<Id>, id: Id)
    requires id !in q
    ensures Without(q, id) == q
  {
    if q != [] {
      var rest, last := q[..|q| - 1], q[|q| - 1];
      assert q == rest + [last];
      assert id !in rest && last != id;
      WithoutSelf(rest, id);
    }
  }

  lemma AbortOwned(c: Cfg, s: Sys, id: Id)
    requires Shape(c, s) && Owned(c, s) && id in s.reqs && s.reqs[id].Live()
    ensures Shape(c, Abort(c, s, id)) && Owned(c, Abort(c, s, id))
  {
    var s0 := s.(reqs := s.reqs[id := s.reqs[id].(state := Aborted)], returned := s.returned + s.reqs[id].device);
    FreeSegOwned(c, s0, id);
  }

  /** The abort, field by field. */
  lemma AbortFields(c: Cfg, s: Sys, id: Id)
    requires s.clients.Keys == s.reqs.Keys && id in s.reqs && s.reqs[id].Live()
    ensures var r := Abort(c, s, id);
            && r.reqs == s.reqs[id := s.reqs[id].(state := Aborted)]
            && r.waiting == Without(s.waiting, id) && r.decoding == Without(s.decoding, id)
            && r.meta == s.meta - {id} && r.segs == s.segs - {id} && r.arrivals == s.arrivals && r.cache == s.cache
            && r.owner == FreeSeg(c, s, id).owner && r.clients == FreeSeg(c, s, id).clients
            && r.x.store == s.x.store && r.x.engine == s.x.engine && r.x.single == DropSingle(s.x, id).single
  {
  }

  lemma AbortLeft(c: Cfg, s: Sys, id: Id)
    requires Queues(s) && id in s.reqs && s.reqs[id].Live()
    ensures Left(s, Abort(c, s, id), id) && !Abort(c, s, id).reqs[id].Live()
  {
    AbortFields(c, s, id);
  }

  lemma AbortLedger(c: Cfg, s: Sys, id: Id)
    requires Books(c, s) && Ledger(s) && id in s.reqs && s.reqs[id].Live()
    ensures Ledger(Abort(c, s, id))
  {
    UnreturnedUpdate(s.reqs, id, s.reqs[id].(state := Aborted), s.arrivals);
  }

  /** Removing a request keeps the singleton discipline, provided its own singleton goes too. */
  lemma LeavesSingle(c: Cfg, s: Sys, r: Sys, id: Id)
    requires SingleOk(c, s)
    requires r.x.single == DropSingle(s.x, id).single
    requires r.decoding == Without(s.decoding, id) && r.segs == s.segs - {id}
    requires forall o :: o in s.reqs && o != id ==> o in r.reqs && r.reqs[o] == s.reqs[o]
    requires s.x.single.Some? && AllFree(s.owner, s.x.single.value.base, c.W()) ==>
               AllFree(r.owner, s.x.single.value.base, c.W())
    ensures SingleOk(c, r)
  {
    if r.x.single.Some? {
      var q := r.x.single.value;
      if Current(q, s.reqs, s.segs, s.decoding) {
        WithoutSelf(s.decoding, id);
      } else {
        assert r.decoding == [];
      }
    }
  }

  lemma AbortSingle(c: Cfg, s: Sys, id: Id)
    requires SingleOk(c, s) && s.clients.Keys == s.reqs.Keys && id in s.reqs && s.reqs[id].Live()
    ensures SingleOk(c, Abort(c, s, id))
  {
    AbortFields(c, s, id);
    if s.x.single.Some? && AllFree(s.owner, s.x.single.value.base, c.W()) {
      FreeSegStaysFree(c, s, id, s.x.single.value.base, c.W());
    }
    LeavesSingle(c, s, Abort(c, s, id), id);
  }

  lemma AbortContent(c: Cfg, s: Sys, id: Id)
    requires Queues(s) && Reqs(c, s) && Content(c, s) && id in s.reqs && s.reqs[id].Live()
    ensures Content(c, Abort(c, s, id))
  {
    AbortFields(c, s, id);
    KeepsContent(c, s, Abort(c, s, id));
  }

  lemma AbortIsolated(c: Cfg, s: Sys, id: Id)
    requires Isolated(c, s) && s.clients.Keys == s.reqs.Keys && id in s.reqs && s.reqs[id].Live()
    ensures Isolated(c, Abort(c, s, id))
  {
    var r := Abort(c, s, id);
    forall o | o in r.clients && !r.clients[o].restarted
      ensures ClientOk(c, r.clients[o]) && (o in r.meta ==> ChainOk(c, r.meta[o], r.clients[o]))
    {
      assert ClientOk(c, s.clients[o]);
    }
  }

  lemma AbortKeeps(c: Cfg, s: Sys, id: Id)
    requires Inv(c, s)
    ensures Inv(c, Abort(c, s, id))
  {
    if id in s.reqs && s.reqs[id].Live() {
      AbortLeft(c, s, id);
      LeftReqs(c, s, Abort(c, s, id), id);
      AbortOwned(c, s, id);
      AbortLedger(c, s, id);
      AbortSingle(c, s, id);
      if !s.chunked {
        AbortContent(c, s, id);
        AbortIsolated(c, s, id);
      }
    }
  }

  // ---- preemption ------------------------------------------------------------------------------------

  lemma PreemptQueues(c: Cfg, s: Sys, id: Id)
    requires Queues(s) && id in s.decoding && id !in s.waiting && id in s.reqs && s.reqs[id].state == Decode
    ensures Queues(PreemptVictim(c, s, id))
  {
    hide DropRefs, OwnWindow;
    WithoutNoDups(s.decoding, id);
  }

  lemma PreemptVictimOk(c: Cfg, s: Sys, id: Id)
    requires Queues(s) && id in s.decoding && id in s.reqs && IdOk(c, s, id)
    ensures s.reqs[id].state == Decode && id !in s.waiting
    ensures id in PreemptVictim(c, s, id).reqs && id in PreemptVictim(c, s, id).clients && IdOk(c, PreemptVictim(c, s, id), id)
  {
    hide DropRefs, OwnWindow, NoDups, Hist, NonEmpty, MaxLen, LastN;
  }

  lemma PreemptSame(c: Cfg, s: Sys, id: Id, o: Id)
    requires Queues(s) && id in s.reqs && s.reqs[id].state == Decode && o in s.reqs && o != id
    ensures SameFor(s, PreemptVictim(c, s, id), o)
  {
    hide DropRefs, OwnWindow;
  }

  lemma PreemptBooks(c: Cfg, s: Sys, id: Id)
    requires Books(c, s) && id in s.decoding && id in s.reqs && s.reqs[id].state == Decode
    ensures Queues(PreemptVictim(c, s, id)) && Reqs(c, PreemptVictim(c, s, id))
  {
    assert IdOk(c, s, id);
    PreemptVictimOk(c, s, id);
    PreemptQueues(c, s, id);
    var r := PreemptVictim(c, s, id);
    forall o | o in r.reqs && o != id
      ensures SameFor(s, r, o)
    {
      PreemptSame(c, s, id, o);
    }
    hide IdOk, SameFor, Shape, SingleOk;
    ReqsFrame(c, s, r, id);
  }

  lemma PreemptOwned(c: Cfg, s: Sys, id: Id)
    requires Shape(c, s) && Owned(c, s) && id in s.reqs && s.reqs[id].state == Decode
    ensures Shape(c, PreemptVictim(c, s, id)) && Owned(c, PreemptVictim(c, s, id))
  {
    var s0 := s.(reqs := s.reqs[id := s.reqs[id].Preempt()], returned := s.returned + s.reqs[id].device);
    FreeSegOwned(c, s0, id);
  }

  lemma PreemptLedger(c: Cfg, s: Sys, id: Id)
    requires Queues(s) && Ledger(s) && id in s.reqs && s.reqs[id].state == Decode
    ensures Ledger(PreemptVictim(c, s, id))
  {
    UnreturnedUpdate(s.reqs, id, s.reqs[id].Preempt(), s.arrivals);
  }

  lemma PreemptSingle(c: Cfg, s: Sys, id: Id)
    requires SingleOk(c, s) && id in s.decoding && id in s.reqs && s.reqs[id].state == Decode
    ensures SingleOk(c, PreemptVictim(c, s, id))
  {
    assert PreemptVictim(c, s, id).x.single.None?;
  }

  lemma PreemptContent(c: Cfg, s: Sys, id: Id)
    requires Books(c, s) && Content(c, s) && id in s.reqs && s.reqs[id].state == Decode
    ensures Content(c, PreemptVictim(c, s, id))
  {
    KeepsContent(c, s, PreemptVictim(c, s, id));
  }

  lemma PreemptIsolated(c: Cfg, s: Sys, id: Id)
    requires Isolated(c, s) && id in s.reqs && s.reqs[id].state == Decode
    ensures Isolated(c, PreemptVictim(c, s, id))
  {
    var r := PreemptVictim(c, s, id);
    forall o | o in r.clients && !r.clients[o].restarted
      ensures ClientOk(c, r.clients[o]) && (o in r.meta ==> ChainOk(c, r.meta[o], r.clients[o]))
    {
      assert ClientOk(c, s.clients[o]);
    }
  }

  lemma PreemptKeeps(c: Cfg, s: Sys, id: Id)
    requires Inv(c, s) && id in s.decoding
    ensures id in s.reqs && s.reqs[id].state == Decode && Inv(c, PreemptVictim(c, s, id))
  {
    DecodingState(c, s, id);
    PreemptBooks(c, s, id);
    PreemptOwned(c, s, id);
    PreemptLedger(c, s, id);
    PreemptSingle(c, s, id);
    if !s.chunked {
      PreemptContent(c, s, id);
      PreemptIsolated(c, s, id);
    }
  }
}
