/** The event loop as an object over the executor: its maps and queues are fields, reassigned
    step by step, and every method is proved against the value-level step it performs.  A whole
    run of the object is a run of the transition system, so what holds of every reachable
    state holds of the loop. */
module SchedLoop {
  import opened Transformer
  import opened PagedKv
  import opened Requests
  import opened SchedState
  import opened ExecSteps
  import opened SchedSteps
  import opened SchedRelease
  import opened SchedPrefill
  import opened SchedDecode
  import opened SchedConfirm
  import opened CacheRefill
  import opened SchedRuns
  import opened SchedTheorems
  import opened SegmentPool
  import opened EngineKv
  import opened ExecutorKv

  // ---- what ownership means for the pool's own assertions ------------------------------------------

  /** A live segment's pages are all referenced, so releasing it never trips the pool. */
  lemma SegmentHeld(c: Cfg, s: Sys, id: Id)
    requires Shape(c, s) && Owned(c, s) && id in s.segs
    ensures s.segs[id] + c.W() <= c.kvPages && AllHeld(s.x.refs, s.segs[id], c.W())
  {
    forall p | s.segs[id] <= p < s.segs[id] + c.W()
      ensures s.x.refs[p] >= 1
    {
      assert s.owner[p] == Seg(id);
    }
  }

  lemma EntryHeld(c: Cfg, s: Sys, k: Key)
    requires Shape(c, s) && Owned(c, s) && k in Cached(s)
    ensures |k| / BLOCK <= c.dev.pp && RunHeld(c.dev, s.x.refs, Cached(s)[k], |k| / BLOCK)
  {
    var base, n := Cached(s)[k], |k| / BLOCK;
    forall li | 0 <= li < c.dev.m.nLayer
      ensures AllHeld(s.x.refs, c.dev.PageOf(base, li, 0), n)
    {
      c.dev.PageFits(base, li, n - 1);
      var first := c.dev.PageOf(base, li, 0);
      forall p | first <= p < first + n
        ensures s.x.refs[p] >= 1
      {
        assert p == c.dev.PageOf(base, li, p - first);
        assert c.dev.InRun(base, n, p);
        assert s.owner[p] == Run(k);
      }
    }
  }

  // ---- a prefill assignment, case by case ------------------------------------------------------------

  lemma InvBooks(c: Cfg, s: Sys)
    requires Inv(c, s)
    ensures Books(c, s) && |s.x.refs| == c.kvPages
  {
    hide Queues, Reqs, SingleOk, Owned, Ledger, Content, Isolated, SegsFit, CacheFits;
  }

  lemma Assignable(c: Cfg, s: Sys, a: Assignment)
    requires Inv(c, s) && AssignmentOk(c, s, a)
    ensures Books(c, s) && a.id in s.reqs && a.id in s.meta && a.id in s.clients && a.start == s.reqs[a.id].cached
    ensures s.reqs[a.id].state == Waiting || s.reqs[a.id].state == Preempted || s.reqs[a.id].state == Chunked
    ensures EndOf(s, a) <= a.start ==> Assign(c, s, a) == s
    ensures s.reqs[a.id].state == Chunked ==> EndOf(s, a) <= s.reqs[a.id].promptLen
  {
    assert IdOk(c, s, a.id);
    hide Dispatch, StartOn;
  }

  lemma AssignMoreIs(c: Cfg, s: Sys, a: Assignment)
    requires Inv(c, s) && AssignmentOk(c, s, a) && EndOf(s, a) > a.start && s.reqs[a.id].state == Chunked
    requires EndOf(s, a) <= s.reqs[a.id].promptLen
    ensures var s1 := s.(reqs := s.reqs[a.id := s.reqs[a.id].DispatchChunk(EndOf(s, a))]);
            Staging(c, s1, a.id, a.start, EndOf(s, a)) && HitFits(c, s1, a) && Assign(c, s, a) == Dispatch(c, s1, a, EndOf(s, a))
  {
    hide Dispatch, StartOn;
    assert IdOk(c, s, a.id);
    EntryChunk(c, s, a, EndOf(s, a));
    EntryStaging(c, s, a, EndOf(s, a), s.(reqs := s.reqs[a.id := s.reqs[a.id].DispatchChunk(EndOf(s, a))]));
  }

  lemma AssignPutOff(c: Cfg, s: Sys, a: Assignment)
    requires Inv(c, s) && AssignmentOk(c, s, a) && s.reqs[a.id].state != Chunked && a.alloc.None?
    ensures Assign(c, s, a) == s
  {
    hide Dispatch, StartOn;
  }

  lemma AllocOk(c: Cfg, s: Sys, a: Assignment, base: nat)
    requires AssignmentOk(c, s, a) && AllZero(s.x.refs, base, c.W()) && |s.x.refs| == c.kvPages
    ensures AssignmentOk(c, s, a.(alloc := Some(base)))
  {
  }

  lemma FreshStart(c: Cfg, s: Sys, id: Id)
    requires id in s.reqs && id in s.clients && IdOk(c, s, id)
    requires s.reqs[id].state == Waiting || s.reqs[id].state == Preempted
    ensures id in s.meta && s.reqs[id].cached == 0 && JobOk(c, s.meta[id].job)
  {
  }

  lemma AssignFreshStaged(c: Cfg, s: Sys, a: Assignment)
    requires Shape(c, s) && AssignmentOk(c, s, a) && EndOf(s, a) > a.start == 0 && a.alloc.Some?
    requires a.id in s.clients && JobOk(c, s.meta[a.id].job)
    requires s.reqs[a.id].state == Waiting || s.reqs[a.id].state == Preempted
    ensures var s1 := StartOn(c, s, a.id, a.alloc.value, EndOf(s, a));
            Staging(c, s1, a.id, a.start, EndOf(s, a)) && HitFits(c, s1, a)
  {
    EntryFresh(c, s, a, EndOf(s, a));
    hide StartOn;
    EntryStaging(c, s, a, EndOf(s, a), StartOn(c, s, a.id, a.alloc.value, EndOf(s, a)));
  }

  lemma AssignFreshUnfolds(c: Cfg, s: Sys, a: Assignment)
    requires a.id in s.reqs && a.id in s.meta && a.id in s.clients
    requires Books(c, s) && AssignmentOk(c, s, a) && EndOf(s, a) > a.start && a.alloc.Some?
    requires s.reqs[a.id].state == Waiting || s.reqs[a.id].state == Preempted
    requires var s1 := StartOn(c, s, a.id, a.alloc.value, EndOf(s, a) - a.start);
             Staging(c, s1, a.id, a.start, EndOf(s, a)) && HitFits(c, s1, a)
    ensures var s1 := StartOn(c, s, a.id, a.alloc.value, EndOf(s, a) - a.start);
            Assign(c, s, a) == Dispatch(c, s1, a, EndOf(s, a))
  {
    hide Books, AssignmentOk, Dispatch, StartOn, Staging;
  }

  lemma AssignFreshIs(c: Cfg, s: Sys, a: Assignment)
    requires a.id in s.reqs && a.id in s.meta && a.id in s.clients
    requires Books(c, s) && AssignmentOk(c, s, a) && EndOf(s, a) > a.start && a.alloc.Some?
    requires s.reqs[a.id].state == Waiting || s.reqs[a.id].state == Preempted
    ensures var s1 := StartOn(c, s, a.id, a.alloc.value, EndOf(s, a) - a.start);
            Staging(c, s1, a.id, a.start, EndOf(s, a)) && HitFits(c, s1, a) && Assign(c, s, a) == Dispatch(c, s1, a, EndOf(s, a))
  {
    assert IdOk(c, s, a.id) && Shape(c, s) && a.start == s.reqs[a.id].cached;
    hide Books, AssignmentOk, Dispatch, StartOn, Staging, HitFits, Assign, Shape, IdOk;
    FreshStart(c, s, a.id);
    AssignFreshStaged(c, s, a);
    AssignFreshUnfolds(c, s, a);
  }

  lemma RefillIs(c: Cfg, s: Sys, id: Id, key: Key)
    requires ExecOk(c, s.x) && id in s.segs && s.segs[id] + c.W() <= c.kvPages && id in s.clients
    ensures var base, n := s.segs[id], |key| / BLOCK;
            Refill(c, s, id, key) ==
              s.(cache := Some(Cached(s)[key := base]), x := RefillOp(c, s.x, id, base, n),
                 owner := OwnRun(c.dev, OwnWindow(s.owner, base, c.W(), Free), base, n, Run(key)),
                 segs := s.segs - {id}, clients := s.clients[id := s.clients[id].(frees := s.clients[id].frees + 1)])
  {
    hide TakeAndFlush, RefRun, DropRefs, OwnRun, OwnWindow;
  }

  // ---- eviction, entry by entry ----------------------------------------------------------------------

  lemma EvictOne(c: Cfg, s: Sys, k: Key)
    ensures Evict(c, s, [k]) ==
              if k in Cached(s) then
                s.(cache := Some(Cached(s) - {k}),
                   x := s.x.(refs := UnrefRun(c.dev, s.x.refs, Cached(s)[k], |k| / BLOCK)),
                   owner := OwnRun(c.dev, s.owner, Cached(s)[k], |k| / BLOCK, Free))
              else s
  {
    var s1 := if k in Cached(s) then
                s.(cache := Some(Cached(s) - {k}),
                   x := s.x.(refs := UnrefRun(c.dev, s.x.refs, Cached(s)[k], |k| / BLOCK)),
                   owner := OwnRun(c.dev, s.owner, Cached(s)[k], |k| / BLOCK, Free))
              else s;
    assert [k][1..] == [];
    assert Evict(c, s1, []) == s1;
  }

  lemma EvictSplit(c: Cfg, s: Sys, keys: seq<Key>)
    requires keys != []
    ensures Evict(c, s, keys) == Evict(c, Evict(c, s, [keys[0]]), keys[1..])
  {
    EvictOne(c, s, keys[0]);
  }

  // ---- one token, case by case -----------------------------------------------------------------------

  ghost function Ended(s: Sys, id: Id, row: Vec, r: Req): Sys
    requires id in s.meta
  {
    s.(reqs := s.reqs[id := r], dispatched := s.dispatched + 1,
       meta := s.meta[id := s.meta[id].(rows := s.meta[id].rows + [row])])
  }

  lemma EndsIs(c: Cfg, s: Sys, id: Id, row: Vec, out: Outcome)
    requires Shape(c, s) && Owned(c, s) && s.clients.Keys == s.reqs.Keys && id in s.reqs && id in s.meta && id in s.segs
    requires s.reqs[id].state == Decode && !out.fault
    requires var token := TokenOf(c, s, id, row); !s.reqs[id].DecodeStep(token).1.DecodeConfirmed?
    ensures var t := Ended(s, id, row, s.reqs[id].DecodeStep(TokenOf(c, s, id, row)).0);
            && Shape(c, t) && Owned(c, t) && id in t.reqs && id in t.clients && id in t.segs && id in t.meta
            && t.meta[id].job == s.meta[id].job
            && ConfirmOne(c, s, id, row, out) == Terminal(c, t, id, out)
  {
    hide Terminal, SegsFit, CacheFits, OwnedBy, ExecOk, StopMatcher.Push;
  }

  lemma AppendShape(c: Cfg, s: Sys, id: Id, row: Vec, token: Token)
    requires Shape(c, s) && Owned(c, s) && s.clients.Keys == s.reqs.Keys && id in s.reqs && id in s.meta
    requires s.reqs[id].state == Decode
    ensures var t := Append(s, id, row, token).0; var u := Append(s, id, row, token).1;
            && Shape(c, t) && Owned(c, t) && t.clients.Keys == t.reqs.Keys && id in t.clients
            && u == t.(clients := t.clients[id := t.clients[id].(emitted := t.clients[id].emitted + [token])])
  {
    hide SegsFit, CacheFits, OwnedBy, ExecOk, StopMatcher.Push;
  }

  // ---- the decode loop, request by request -----------------------------------------------------------

  lemma NextPending(c: Cfg, s: Sys, ids: seq<Id>, rows: seq<Vec>, outs: Id -> Outcome)
    requires Inv(c, s) && Pending(c, s, ids, rows) && ids != []
    ensures ids[0] in s.reqs && ids[0] in s.meta && ids[0] in s.segs && |s.meta[ids[0]].job.prompt| <= c.dev.pp * BLOCK
    ensures Shape(c, s) && Owned(c, s) && s.clients.Keys == s.reqs.Keys
    ensures var s1 := ConfirmOne(c, s, ids[0], rows[0], outs(ids[0]));
            && Inv(c, s1) && Pending(c, s1, ids[1..], rows[1..])
            && ConfirmAll(c, s, ids, rows, outs) == ConfirmAll(c, s1, ids[1..], rows[1..], outs)
  {
    ConfirmKeeps(c, s, ids[0], rows[0], outs(ids[0]));
    assert IdOk(c, s, ids[0]);
    hide ConfirmOne;
    PendingTail(c, s, ConfirmOne(c, s, ids[0], rows[0], outs(ids[0])), ids, rows);
  }

  // ---- a selection, entry by entry -------------------------------------------------------------------

  /** Victims are distinct decoding requests; picks are slices of distinct waiting requests,
      each with the cache's answer and without a segment yet. */
  ghost predicate SelectionOk(c: Cfg, s: Sys, victims: seq<Id>, picks: seq<Assignment>) {
    && NoDups(victims) && (forall i :: 0 <= i < |victims| ==> victims[i] in s.decoding)
    && (forall i :: 0 <= i < |picks| ==> picks[i].alloc == None && AssignmentOk(c, s, picks[i]))
    && (forall i, j :: 0 <= i < j < |picks| ==> picks[i].id != picks[j].id)
  }

  /** `es` is the victims' preemptions followed by the picks' prefills. */
  ghost predicate Carries(es: seq<Event>, victims: seq<Id>, picks: seq<Assignment>) {
    && |es| == |victims| + |picks|
    && (forall i :: 0 <= i < |victims| ==> es[i] == PreemptedBy(victims[i]))
    && var rest := es[|victims|..];
    forall i :: 0 <= i < |picks| ==> rest[i].Prefilled? && rest[i].a.(alloc := None) == picks[i]
  }

  lemma ReachStep(c: Cfg, s0: Sys, es: seq<Event>, s: Sys, e: Event, t: Sys)
    requires Reaches(c, s0, es, s) && Steps(c, s, e, t)
    ensures Reaches(c, s0, es + [e], t)
  {
    hide Steps;
    var es' := es + [e];
    assert es'[..|es'| - 1] == es && es'[|es'| - 1] == e;
  }

  /** What the first-fit pool answers: a free window that starts where a taken page or the pool
      ends, or nothing when a segment is needed and no window is free. */
  ghost predicate Answered(c: Cfg, s: Sys, a: Assignment) {
    && a.id in s.reqs && a.id in s.meta
    && (a.alloc.Some? && a.alloc.value > 0 ==> a.alloc.value <= |s.x.refs| && s.x.refs[a.alloc.value - 1] > 0)
    && (a.alloc.None? ==>
          EndOf(s, a) <= a.start || s.reqs[a.id].state == Chunked || forall base :: !AllZero(s.x.refs, base, c.W()))
  }

  ghost predicate AllotsOne(c: Cfg, p: Sys, e: Event, s: Sys) {
    Steps(c, p, e, s) && (e.Prefilled? ==> Answered(c, p, e.a))
  }

  /** A run in which every segment comes from the first-fit pool. */
  ghost predicate Allots(c: Cfg, s0: Sys, es: seq<Event>, s: Sys)
    decreases |es|
  {
    if es == [] then s == s0
    else
      var prior, last := es[..|es| - 1], es[|es| - 1];
      exists p :: Allots(c, s0, prior, p) && AllotsOne(c, p, last, s)
  }

  lemma {:induction false} AllotsReaches(c: Cfg, s0: Sys, es: seq<Event>, s: Sys)
    requires Allots(c, s0, es, s)
    ensures Reaches(c, s0, es, s)
    decreases |es|
  {
    hide Steps, Answered;
    if es != [] {
      var prior, last := es[..|es| - 1], es[|es| - 1];
      var p :| Allots(c, s0, prior, p) && AllotsOne(c, p, last, s);
      AllotsReaches(c, s0, prior, p);
    }
  }

  lemma AllotsMore(c: Cfg, s0: Sys, es: seq<Event>, s: Sys, e: Event)
    requires Allots(c, s0, es, s) && Inv(c, s) && Enabled(c, s, e) && (e.Prefilled? ==> Answered(c, s, e.a))
    ensures Allots(c, s0, es + [e], Next(c, s, e))
  {
    hide Inv, Enabled, Next, Answered;
    var es' := es + [e];
    assert es'[..|es'| - 1] == es && es'[|es'| - 1] == e;
    assert AllotsOne(c, s, e, Next(c, s, e));
  }

  /** `t` is reached from `s` by preempting the victims and prefilling the picks, each with the
      segment the pool handed out. */
  ghost predicate Progress(c: Cfg, s: Sys, victims: seq<Id>, picks: seq<Assignment>, t: Sys) {
    exists es :: Carries(es, victims, picks) && Allots(c, s, es, t)
  }

  lemma NoProgress(c: Cfg, s: Sys)
    ensures Progress(c, s, [], [], s)
  {
    assert Carries([], [], []) && Allots(c, s, [], s);
  }

  lemma CarriesVictim(es: seq<Event>, victims: seq<Id>, id: Id)
    requires Carries(es, victims, [])
    ensures Carries(es + [PreemptedBy(id)], victims + [id], [])
  {
  }

  lemma CarriesPick(es: seq<Event>, victims: seq<Id>, picks: seq<Assignment>, pick: Assignment, a: Assignment)
    requires Carries(es, victims, picks) && a.(alloc := None) == pick
    ensures Carries(es + [Prefilled(a)], victims, picks + [pick])
  {
    var es' := es + [Prefilled(a)];
    assert es'[|victims|..] == es[|victims|..] + [Prefilled(a)];
  }

  lemma Progressed(c: Cfg, s0: Sys, victims: seq<Id>, picks: seq<Assignment>, s: Sys, es: seq<Event>)
    requires Carries(es, victims, picks) && Allots(c, s0, es, s)
    ensures Progress(c, s0, victims, picks, s)
  {
    hide Carries, Allots;
  }

  lemma VictimReach(c: Cfg, s0: Sys, victims: seq<Id>, s: Sys, id: Id)
    requires Progress(c, s0, victims, [], s) && Inv(c, s) && id in s.decoding && id in s.reqs && s.reqs[id].state == Decode
    ensures Progress(c, s0, victims + [id], [], PreemptVictim(c, s, id))
  {
    hide PreemptVictim, Inv, Allots, Carries;
    var es :| Carries(es, victims, []) && Allots(c, s0, es, s);
    AllotsMore(c, s0, es, s, PreemptedBy(id));
    CarriesVictim(es, victims, id);
    Progressed(c, s0, victims + [id], [], PreemptVictim(c, s, id), es + [PreemptedBy(id)]);
  }

  lemma PickReach(c: Cfg, s0: Sys, victims: seq<Id>, picks: seq<Assignment>, s: Sys, pick: Assignment, a: Assignment)
    requires Progress(c, s0, victims, picks, s) && Inv(c, s) && Books(c, s) && AssignmentOk(c, s, a)
    requires a.(alloc := None) == pick && Answered(c, s, a)
    ensures Progress(c, s0, victims, picks + [pick], Assign(c, s, a))
  {
    hide Assign, Inv, Allots, Answered, AssignmentOk, Carries, Books;
    var es :| Carries(es, victims, picks) && Allots(c, s0, es, s);
    AllotsMore(c, s0, es, s, Prefilled(a));
    CarriesPick(es, victims, picks, pick, a);
    Progressed(c, s0, victims, picks + [pick], Assign(c, s, a), es + [Prefilled(a)]);
  }

  lemma PreemptDecoding(c: Cfg, s: Sys, id: Id)
    requires id in s.reqs && s.reqs[id].state == Decode
    ensures PreemptVictim(c, s, id).decoding == Without(s.decoding, id)
  {
    hide DropRefs, OwnWindow;
  }

  lemma InQueue(c: Cfg, s: Sys, a: Assignment)
    requires AssignmentOk(c, s, a)
    ensures a.id in s.waiting
  {
  }

  lemma WaitingStays(c: Cfg, s: Sys, w: Id, d: Id)
    requires Queues(s) && Reqs(c, s) && w in s.waiting && d in s.decoding
    ensures w != d
  {
    DecodingState(c, s, d);
    assert IdOk(c, s, d);
  }

  lemma VictimsStay(q: seq<Id>, victims: seq<Id>)
    requires NoDups(victims) && victims != [] && forall i :: 0 <= i < |victims| ==> victims[i] in q
    ensures NoDups(victims[1..])
    ensures forall i :: 0 <= i < |victims[1..]| ==> victims[1..][i] in Without(q, victims[0])
  {
  }

  lemma PicksSpared(c: Cfg, s: Sys, id: Id, picks: seq<Assignment>)
    requires Queues(s) && Reqs(c, s) && id in s.decoding && id in s.reqs && s.reqs[id].state == Decode
    requires forall i :: 0 <= i < |picks| ==> picks[i].alloc == None && AssignmentOk(c, s, picks[i])
    ensures forall i :: 0 <= i < |picks| ==> AssignmentOk(c, PreemptVictim(c, s, id), picks[i])
  {
    hide PreemptVictim, IdOk, AssignmentOk;
    forall i | 0 <= i < |picks|
      ensures AssignmentOk(c, PreemptVictim(c, s, id), picks[i])
    {
      InQueue(c, s, picks[i]);
      WaitingStays(c, s, picks[i].id, id);
      PickSpared(c, s, id, picks[i]);
    }
  }

  lemma VictimNext(c: Cfg, s: Sys, victims: seq<Id>, picks: seq<Assignment>)
    requires Inv(c, s) && SelectionOk(c, s, victims, picks) && victims != []
    ensures victims[0] in s.decoding && victims[0] in s.reqs && s.reqs[victims[0]].state == Decode
    ensures SelectionOk(c, PreemptVictim(c, s, victims[0]), victims[1..], picks)
  {
    hide PreemptVictim, AssignmentOk, Shape, SingleOk, Owned, Ledger, Content, Isolated, NoDups;
    DecodingState(c, s, victims[0]);
    PreemptDecoding(c, s, victims[0]);
    VictimsStay(s.decoding, victims);
    PicksSpared(c, s, victims[0], picks);
  }

  lemma PickSpared(c: Cfg, s: Sys, victim: Id, a: Assignment)
    requires AssignmentOk(c, s, a) && a.alloc == None && victim in s.reqs && s.reqs[victim].state == Decode && a.id != victim
    ensures AssignmentOk(c, PreemptVictim(c, s, victim), a)
  {
    hide DropRefs, OwnWindow;
  }

  lemma PickFirst(c: Cfg, s: Sys, picks: seq<Assignment>)
    requires SelectionOk(c, s, [], picks) && picks != []
    ensures AssignmentOk(c, s, Assignment(picks[0].id, picks[0].start, picks[0].end, None, picks[0].hit))
    ensures picks[0] == Assignment(picks[0].id, picks[0].start, picks[0].end, None, picks[0].hit)
  {
    assert picks[0] == Assignment(picks[0].id, picks[0].start, picks[0].end, None, picks[0].hit);
  }

  lemma PickNext(c: Cfg, s: Sys, picks: seq<Assignment>, a: Assignment)
    requires Inv(c, s) && SelectionOk(c, s, [], picks) && picks != [] && AssignmentOk(c, s, a) && a.id == picks[0].id
    ensures SelectionOk(c, Assign(c, s, a), [], picks[1..])
  {
    var r := Assign(c, s, a);
    forall i | 0 <= i < |picks[1..]|
      ensures AssignmentOk(c, r, picks[1..][i])
    {
      OtherPick(c, s, a, picks[i + 1]);
    }
  }

  /** An assignment leaves the other waiting requests and the cache as they were. */
  lemma OtherPick(c: Cfg, s: Sys, a: Assignment, b: Assignment)
    requires Inv(c, s) && AssignmentOk(c, s, a) && AssignmentOk(c, s, b) && b.alloc == None && a.id != b.id
    ensures AssignmentOk(c, Assign(c, s, a), b)
  {
    hide Owned, Ledger, Content, Isolated, Dispatch, StartOn, Shape;
    assert IdOk(c, s, a.id);
    if Proceeds(c, s, a) {
      var s1 := EntryOf(c, s, a);
      DispatchFields(c, s1, a, EndOf(s, a));
      LandedOther(c, s, a, EndOf(s, a), s1, Assign(c, s, a), b);
    }
  }

  lemma LandedOther(c: Cfg, s: Sys, a: Assignment, end: nat, s1: Sys, r: Sys, b: Assignment)
    requires Entered(c, s, a, end, s1) && Landed(s1, a, end, r)
    requires AssignmentOk(c, s, b) && b.alloc == None && a.id != b.id
    ensures AssignmentOk(c, r, b)
  {
  }

  // ---- runs -------------------------------------------------------------------------------------------

  lemma ReachableNext(c: Cfg, s: Sys, e: Event)
    requires Reachable(c, s) && Enabled(c, s, e)
    ensures Inv(c, s) && Reachable(c, Next(c, s, e))
  {
    hide Inv, Reaches, Initial, Next, Enabled;
    var s0, es :| Initial(c, s0) && Reaches(c, s0, es, s);
    RunExtends(c, s0, es, s, e);
  }

  lemma {:induction false} RunsJoin(c: Cfg, s0: Sys, es: seq<Event>, s: Sys, fs: seq<Event>, t: Sys)
    requires Reaches(c, s0, es, s) && Reaches(c, s, fs, t)
    ensures Reaches(c, s0, es + fs, t)
    decreases |fs|
  {
    hide Inv, Steps;
    if fs == [] {
      assert es + fs == es;
    } else {
      var prior, last := fs[..|fs| - 1], fs[|fs| - 1];
      var p :| Reaches(c, s, prior, p) && Steps(c, p, last, t);
      RunsJoin(c, s0, es, s, prior, p);
      ReachStep(c, s0, es + prior, p, last, t);
      assert es + fs == (es + prior) + [last];
    }
  }

  lemma ReachableFar(c: Cfg, s: Sys, victims: seq<Id>, picks: seq<Assignment>, t: Sys)
    requires Reachable(c, s) && Progress(c, s, victims, picks, t)
    ensures Reachable(c, t)
  {
    hide Inv, Reaches, Carries, Allots;
    var s0, es :| Initial(c, s0) && Reaches(c, s0, es, s);
    var fs :| Carries(fs, victims, picks) && Allots(c, s, fs, t);
    AllotsReaches(c, s, fs, t);
    RunsJoin(c, s0, es, s, fs, t);
    hide Initial;
  }

  /** The loop before its first command. */
  ghost function StartSys(c: Cfg, x: Exec, caching: bool): Sys {
    Sys(x, map[], map[], [], [], map[], if caching then Some(map[]) else None, 0, 0,
        [], map[], OwnWindow(seq(c.kvPages, _ => Free), AnchorBase(c), c.W(), Anchor), false)
  }

  lemma StartsReachable(c: Cfg, x: Exec, caching: bool)
    requires ExecOk(c, x) && x.single == None && x.refs == TakeRefs(seq(c.kvPages, _ => 0), AnchorBase(c), c.W())
    ensures Initial(c, StartSys(c, x, caching)) && Reachable(c, StartSys(c, x, caching))
  {
    hide OwnWindow, TakeRefs;
    var s := StartSys(c, x, caching);
    assert Reaches(c, s, [], s);
  }

  lemma StagingFits(c: Cfg, s: Sys, id: Id, start: nat, end: nat)
    requires Staging(c, s, id, start, end)
    ensures id in s.reqs && id in s.meta && id in s.segs && start < end && ExecOk(c, s.x)
    ensures s.reqs[id].state == Prefill || s.reqs[id].state == Chunked
    ensures start / BLOCK + DivUp(end - start) <= c.dev.pp && end <= c.dev.pp * BLOCK
    ensures s.segs[id] + c.W() <= c.kvPages && |s.meta[id].job.prompt| > 0
  {
  }

  // ---- the loop -------------------------------------------------------------------------------------

  class SchedLoop {
    const c: Cfg
    const exec: Executor
    var reqs: map<Id, Req>
    var meta: map<Id, Meta>
    var waiting: seq<Id>
    var decoding: seq<Id>
    var segs: map<Id, nat>
    var cache: Option<map<Key, nat>>
    var dispatched: nat
    var returned: nat
    var arrivals: seq<Id>
    ghost var clients: map<Id, Client>
    ghost var owner: seq<Owner>
    ghost var chunked: bool

    ghost function Repr(): set<object> {
      {this} + exec.Repr()
    }

    ghost predicate Valid()
      reads Repr()
    {
      this !in exec.Repr() && exec.c == c && exec.Valid()
    }

    ghost function State(): Sys
      reads Repr()
    {
      Sys(exec.State(), reqs, meta, waiting, decoding, segs, cache, dispatched, returned, arrivals, clients, owner, chunked)
    }

    constructor (c: Cfg, exec: Executor, caching: bool)
      requires exec.c == c && exec.Valid() && exec.singleton == None
      requires exec.State().refs == TakeRefs(seq(c.kvPages, _ => 0), AnchorBase(c), c.W())
      ensures this.c == c && this.exec == exec && Sound() && Initial(c, State())
    {
      hide Reachable, OwnWindow, TakeRefs;
      this.c, this.exec := c, exec;
      reqs, meta, segs := map[], map[], map[];
      waiting, decoding := [], [];
      cache := if caching then Some(map[]) else None;
      dispatched, returned := 0, 0;
      arrivals, clients, chunked := [], map[], false;
      owner := OwnWindow(seq(c.kvPages, _ => Free), AnchorBase(c), c.W(), Anchor);
      new;
      StartsReachable(c, exec.State(), caching);
      assert State() == StartSys(c, exec.State(), caching);
    }

    // ---- commands -----------------------------------------------------------------------------------

    method Submit(id: Id, job: Job)
      requires Valid() && id !in reqs
      modifies this
      ensures Valid() && State() == SchedSteps.Submit(c, old(State()), id, job)
    {
      hide Executor.Valid, Executor.State;
      if job.prompt == [] {
        return;
      }
      reqs := reqs[id := NewReq(job)];
      meta := meta[id := Meta(job, 0, [], [], 0)];
      waiting := waiting + [id];
      arrivals := arrivals + [id];
      clients := clients[id := Client(job, [], false, false, 0, 0)];
    }

    /** `segs.remove(id)` and, if there was one, the release. */
    method ReleaseSegment(id: Id)
      requires Valid() && Shape(c, State()) && Owned(c, State()) && id in clients
      modifies Repr()
      ensures Valid() && State() == FreeSeg(c, old(State()), id)
    {
      if id in segs {
        SegmentHeld(c, State(), id);
        exec.FreeSegment(segs[id]);
        owner := OwnWindow(owner, segs[id], c.W(), Free);
        segs := segs - {id};
        clients := clients[id := clients[id].(frees := clients[id].frees + 1)];
      } else {
        assert State() == FreeSeg(c, State(), id);
      }
    }

    method Vacate(id: Id)
      requires Valid() && Shape(c, State()) && Owned(c, State()) && id in clients
      modifies Repr()
      ensures Valid() && State() == Unseat(c, old(State()), id)
    {
      hide Shape, Owned, FreeSeg;
      ReleaseSegment(id);
      exec.DropSingleton(id);
    }

    method Leave(id: Id)
      requires Valid()
      modifies this
      ensures Valid() && State() == Forget(old(State()), id)
    {
      decoding := Without(decoding, id);
      waiting := Without(waiting, id);
      meta := meta - {id};
    }

    /** Idempotent: a finished or aborted request, or an unknown one, is left alone. */
    method RequestAbort(id: Id)
      requires Valid() && Shape(c, State()) && Owned(c, State()) && clients.Keys == reqs.Keys
      modifies Repr()
      ensures Valid() && State() == Abort(c, old(State()), id)
    {
      hide Executor.Valid, Executor.State, Unseat, SegsFit, CacheFits, OwnedBy, Without;
      if id !in reqs || !reqs[id].Live() {
        return;
      }
      var dev := reqs[id].device;
      reqs := reqs[id := reqs[id].(state := Aborted)];
      returned := returned + dev;
      Vacate(id);
      Leave(id);
    }

    /** A preemption victim. */
    method PreemptOne(id: Id)
      requires Valid() && Inv(c, State()) && id in decoding
      modifies Repr()
      ensures Valid() && id in old(reqs) && old(reqs)[id].state == Decode
      ensures State() == PreemptVictim(c, old(State()), id) && Inv(c, State())
    {
      PreemptKeeps(c, State(), id);
      hide Inv;
      PreemptParts(id);
    }

    method PreemptParts(id: Id)
      requires Valid() && Shape(c, State()) && Owned(c, State()) && id in reqs && id in clients && reqs[id].state == Decode
      modifies Repr()
      ensures Valid() && State() == PreemptVictim(c, old(State()), id)
    {
      hide Executor.Valid, Executor.State, Unseat, SegsFit, CacheFits, OwnedBy, Without;
      var dev := reqs[id].device;
      reqs := reqs[id := reqs[id].Preempt()];
      returned := returned + dev;
      decoding := Without(decoding, id);
      waiting := [id] + waiting;
      Vacate(id);
    }

    // ---- prefill ------------------------------------------------------------------------------------

    method Begin(id: Id, chunk: nat) returns (seg: Option<nat>)
      requires Valid() && id in reqs && id in meta && id in clients && chunk > 0
      requires reqs[id].state == Waiting || reqs[id].state == Preempted
      modifies Repr()
      ensures Valid()
      ensures seg.Some? <==> exists base :: AllZero(old(State()).x.refs, base, c.W())
      ensures seg.Some? ==>
                && AllZero(old(State()).x.refs, seg.value, c.W())
                && (seg.value > 0 ==> old(State()).x.refs[seg.value - 1] > 0)
      ensures State() == if seg.Some? then StartOn(c, old(State()), id, seg.value, chunk) else old(State())
    {
      hide AllZero, TakeRefs, OwnWindow, ExecOk, StartOn;
      ghost var s := State();
      seg := exec.AllocSegment();
      if seg.Some? {
        Install(id, seg.value, chunk, s);
      }
    }

    /** The segment is taken: record it and (re)start the request on it. */
    method Install(id: Id, base: nat, chunk: nat, ghost s: Sys)
      requires Valid() && id in s.reqs && id in s.meta && id in s.clients && chunk > 0
      requires s.reqs[id].state == Waiting || s.reqs[id].state == Preempted
      requires State() == s.(x := s.x.(refs := TakeRefs(s.x.refs, base, c.W())))
      modifies this
      ensures Valid() && State() == StartOn(c, s, id, base, chunk)
    {
      hide Executor.Valid, Executor.State, TakeRefs, OwnWindow, ExecOk;
      var e := meta[id];
      segs := segs[id := base];
      reqs := reqs[id := reqs[id].StartPrefill(|e.job.prompt|, e.job.maxTokens, chunk)];
      meta := meta[id := e.(genBase := |e.generated|)];
      owner := OwnWindow(owner, base, c.W(), Seg(id));
      clients := clients[id := clients[id].(allocs := clients[id].allocs + 1,
                                            restarted := clients[id].restarted || |e.generated| > 0)];
    }

    /** A cache hit short-circuits the prefill of a whole prompt. */
    method StageChunk(id: Id, start: nat, end: nat, hit: Option<(Key, nat)>)
      requires Valid() && Staging(c, State(), id, start, end)
      requires hit.Some? ==> hit.value.0 in Cached(State()) && Cached(State())[hit.value.0] + c.W() <= c.kvPages
                             && hit.value.1 <= c.dev.pp && hit.value.1 * BLOCK <= |meta[id].job.prompt|
      modifies exec.Repr()
      ensures Valid() && State() == Stage(c, old(State()), id, start, end, hit)
    {
      var prompt := meta[id].job.prompt;
      if hit.Some? && start == 0 && end == |prompt| {
        exec.PrefillPrefixHit(cache.value[hit.value.0], hit.value.1, prompt);
      } else {
        exec.Prefill(prompt[start..end]);
      }
    }

    method PromoteRequest(id: Id)
      requires Valid() && id in meta && |meta[id].job.prompt| > 0
      modifies this
      ensures Valid() && State() == Promote(old(State()), id)
    {
      var prompt := meta[id].job.prompt;
      if id !in decoding {
        decoding := decoding + [id];
      }
      waiting := Without(waiting, id);
      meta := meta[id := meta[id].(cur := prompt[|prompt| - 1])];
    }

    method PlaceChunk(id: Id, base: nat, start: nat, len: nat)
      requires Valid() && base + c.W() <= c.kvPages
      requires start / BLOCK + DivUp(len) <= c.dev.pp && start + len <= c.dev.pp * BLOCK
      modifies exec.Repr()
      ensures Valid() && ExecOk(c, old(exec.State())) && State() == Place(c, old(State()), id, base, start, len)
    {
      hide AdoptOp, CommitOp;
      if |decoding| == 1 {
        exec.AdoptSingleton(id, base, start, len);
      } else {
        exec.CommitStage(base, start, len);
      }
    }

    method SettleChunk(id: Id, start: nat, end: nat)
      requires Valid() && Staging(c, State(), id, start, end)
      modifies Repr()
      ensures Valid() && State() == Settle(c, old(State()), id, start, end)
    {
      hide CommitOp, Promote, Place, ExecOk, Staging;
      StagingFits(c, State(), id, start, end);
      var seg, len := segs[id], end - start;
      var (r, ev) := reqs[id].Confirm();
      reqs := reqs[id := r];
      if ev == ChunkConfirmed {
        exec.CommitStage(seg, start, len);
      } else {
        PromoteRequest(id);
        PlaceChunk(id, seg, start, len);
      }
    }

    method DispatchStaged(id: Id, start: nat, end: nat, hit: Option<(Key, nat)>, ghost a: Assignment)
      requires Valid() && a.id == id && a.start == start && a.hit == hit
      requires Staging(c, State(), id, start, end) && HitFits(c, State(), a)
      modifies Repr()
      ensures Valid() && State() == Dispatch(c, old(State()), a, end)
    {
      dispatched := dispatched + (end - start);
      chunked := chunked || !(start == 0 && end == |meta[id].job.prompt|);
      assert State() == Charge(old(State()), id, start, end);
      hide Stage, Settle;
      StageChunk(id, start, end, hit);
      SettleChunk(id, start, end);
    }

    /** A chunked request goes on in its segment. */
    method Continue(id: Id, start: nat, end: nat, hit: Option<(Key, nat)>, ghost a: Assignment)
      requires Valid() && a.id == id && a.start == start && a.hit == hit
      requires id in reqs && id in meta && reqs[id].state == Chunked && reqs[id].cached < end <= reqs[id].promptLen
      requires var s1 := State().(reqs := reqs[id := reqs[id].DispatchChunk(end)]);
               Staging(c, s1, id, start, end) && HitFits(c, s1, a)
      modifies Repr()
      ensures Valid()
      ensures State() == Dispatch(c, old(State()).(reqs := old(reqs)[id := old(reqs)[id].DispatchChunk(end)]), a, end)
    {
      hide Dispatch, Staging;
      reqs := reqs[id := reqs[id].DispatchChunk(end)];
      DispatchStaged(id, start, end, hit, a);
    }

    method Launch(id: Id, start: nat, end: nat, hit: Option<(Key, nat)>, ghost s: Sys, ghost a: Assignment)
      requires Valid() && a.id == id && a.start == start && a.hit == hit && a.alloc.Some?
      requires id in s.reqs && id in s.meta && id in s.clients && (s.reqs[id].state == Waiting || s.reqs[id].state == Preempted)
      requires Books(c, s) && AssignmentOk(c, s, a) && end == EndOf(s, a) > start
      requires State() == StartOn(c, s, id, a.alloc.value, end - start)
      modifies Repr()
      ensures Valid() && State() == Assign(c, s, a)
    {
      hide Books, AssignmentOk, Assign, Dispatch, Staging, HitFits, StartOn, EndOf, SchedLoop.Valid, SchedLoop.State;
      AssignFreshIs(c, s, a);
      DispatchStaged(id, start, end, hit, a);
    }

    /** A waiting or preempted request needs a segment first. */
    method StartFresh(id: Id, start: nat, end: nat, hit: Option<(Key, nat)>, ghost s: Sys, ghost a0: Assignment)
      returns (ghost a: Assignment)
      requires Valid() && s == State() && a0.id == id && a0.start == start && a0.hit == hit && a0.alloc == None
      requires Inv(c, s) && AssignmentOk(c, s, a0) && end == EndOf(s, a0) > start
      requires id in s.reqs && id in s.meta && id in s.clients && (s.reqs[id].state == Waiting || s.reqs[id].state == Preempted)
      modifies Repr()
      ensures Valid() && a.(alloc := None) == a0
      ensures Books(c, s) && AssignmentOk(c, s, a) && State() == Assign(c, s, a) && Answered(c, s, a)
    {
      hide Inv, Books, AssignmentOk, Assign, StartOn, AllZero;
      InvBooks(c, s);
      var seg := Begin(id, end - start);
      a := a0.(alloc := seg);
      if seg.None? {
        AssignPutOff(c, s, a);
      } else {
        AllocOk(c, s, a0, seg.value);
        Launch(id, start, end, hit, s, a);
      }
    }

    /** One entry of the selection; `hit` is the cache's answer for the prompt. */
    method AssignOne(id: Id, start: nat, sel: nat, hit: Option<(Key, nat)>) returns (ghost a: Assignment)
      requires Valid() && Inv(c, State()) && AssignmentOk(c, State(), Assignment(id, start, sel, None, hit))
      modifies Repr()
      ensures Valid() && a.(alloc := None) == Assignment(id, start, sel, None, hit)
      ensures Books(c, old(State())) && AssignmentOk(c, old(State()), a) && State() == Assign(c, old(State()), a)
      ensures Answered(c, old(State()), a)
    {
      a := Assignment(id, start, sel, None, hit);
      Assignable(c, State(), a);
      hide Inv, Books, AssignmentOk, Assign, Dispatch, Staging, HitFits;
      var end := AlignChunkEnd(sel, |meta[id].job.prompt|);
      if end <= start {
        return;
      }
      if reqs[id].state == Chunked {
        AssignMoreIs(c, State(), a);
        Continue(id, start, end, hit, a);
      } else {
        a := StartFresh(id, start, end, hit, State(), a);
      }
    }

    // ---- finished requests --------------------------------------------------------------------------

    /** Take the evicted entries out of the cache and give their pages back. */
    method EvictEntries(keys: seq<Key>)
      requires Valid() && Shape(c, State()) && Owned(c, State()) && cache.Some?
      modifies Repr()
      ensures Valid() && State() == Evict(c, old(State()), keys)
    {
      ghost var s := State();
      var i := 0;
      while i < |keys|
        invariant i <= |keys| && Valid() && Shape(c, State()) && Owned(c, State()) && cache.Some?
        invariant Evict(c, State(), keys[i..]) == Evict(c, s, keys)
      {
        EvictKeeps(c, State(), [keys[i]]);
        EvictShape(c, State(), [keys[i]]);
        EvictSplit(c, State(), keys[i..]);
        assert keys[i..][0] == keys[i] && keys[i..][1..] == keys[i + 1..];
        EvictEntry(keys[i]);
        i := i + 1;
      }
      assert keys[i..] == [];
    }

    method EvictEntry(key: Key)
      requires Valid() && Shape(c, State()) && Owned(c, State()) && cache.Some?
      modifies Repr()
      ensures Valid() && cache.Some? && State() == Evict(c, old(State()), [key])
    {
      EvictOne(c, State(), key);
      if key in cache.value {
        EntryHeld(c, State(), key);
        var base := cache.value[key];
        exec.UnrefPrefix(base, |key| / BLOCK);
        owner := OwnRun(c.dev, owner, base, |key| / BLOCK, Free);
        cache := Some(cache.value - {key});
      }
    }

    /** The one place where a normal completion may feed the prefix cache. */
    method RefillPrefixRelease(id: Id, prompt: seq<Token>, out: Outcome)
      requires Valid() && Shape(c, State()) && Owned(c, State()) && id in segs && id in clients
      requires |prompt| <= c.dev.pp * BLOCK
      modifies Repr()
      ensures Valid() && State() == RefillRelease(c, old(State()), id, prompt, out)
      ensures LeftBehind(c, old(State()), id, prompt, out, State())
    {
      ReleaseLeaves(c, State(), id, prompt, out);
      hide LeftBehind;
      var key := AlignedKey(prompt);
      if cache.None? || |prompt| / BLOCK < MIN_BLOCKS {
        ReleaseSegment(id);
      } else if (exists k :: k in cache.value && key <= k) || out.declined {
        ReleaseSegment(id);
      } else {
        assert !Covered(State(), key);
        EvictShape(c, State(), out.evict);
        EvictKeeps(c, State(), out.evict);
        EvictEntries(out.evict);
        RefillSegment(id, key);
      }
    }

    method RefillSegment(id: Id, key: Key)
      requires Valid() && Shape(c, State()) && Owned(c, State()) && id in segs && id in clients && cache.Some?
      requires |key| / BLOCK <= c.dev.pp
      modifies Repr()
      ensures Valid() && State() == Refill(c, old(State()), id, key)
    {
      hide Refill, RefillOp, OwnRun, OwnWindow, OwnedBy, AllHeld, CacheFits, SegsFit;
      SegmentHeld(c, State(), id);
      RefillIs(c, State(), id, key);
      var base, n := segs[id], |key| / BLOCK;
      exec.RefillPrefix(id, base, n);
      cache := Some(cache.value[key := base]);
      owner := OwnRun(c.dev, OwnWindow(owner, base, c.W(), Free), base, n, Run(key));
      segs := segs - {id};
      clients := clients[id := clients[id].(frees := clients[id].frees + 1)];
    }

    /** A finished request is accounted for, releases its segment and leaves the queues. */
    method Finish(id: Id, out: Outcome)
      requires Valid() && Shape(c, State()) && Owned(c, State())
      requires id in reqs && id in meta && id in segs && id in clients && |meta[id].job.prompt| <= c.dev.pp * BLOCK
      modifies Repr()
      ensures Valid() && State() == Terminal(c, old(State()), id, out)
    {
      hide RefillRelease;
      clients := clients[id := clients[id].(done := true)];
      returned := returned + reqs[id].device;
      RefillPrefixRelease(id, meta[id].job.prompt, out);
      Leave(id);
    }

    // ---- decode -------------------------------------------------------------------------------------

    /** The frame of a confirmed token; a client that is gone aborts its request. */
    method SendToken(id: Id, token: Token, delivered: bool)
      requires Valid() && Shape(c, State()) && Owned(c, State()) && clients.Keys == reqs.Keys && id in clients
      modifies Repr()
      ensures Valid()
      ensures State() == if delivered then
                           old(State()).(clients := old(clients)[id := old(clients)[id].(emitted := old(clients)[id].emitted + [token])])
                         else Abort(c, old(State()), id)
    {
      if delivered {
        clients := clients[id := clients[id].(emitted := clients[id].emitted + [token])];
      } else {
        RequestAbort(id);
      }
    }

    /** Sample one request's row on its own chain and confirm the token. */
    method ConfirmToken(id: Id, row: Vec, out: Outcome)
      requires Valid() && Shape(c, State()) && Owned(c, State()) && clients.Keys == reqs.Keys
      requires id in reqs && reqs[id].state == Decode ==> id in meta && id in segs && |meta[id].job.prompt| <= c.dev.pp * BLOCK
      modifies Repr()
      ensures Valid() && State() == ConfirmOne(c, old(State()), id, row, out)
    {
      hide Abort, Terminal;
      if id in reqs && reqs[id].state == Decode {
        if out.fault {
          RequestAbort(id);
        } else {
          ConfirmSampled(id, row, out);
        }
      }
    }

    method ConfirmSampled(id: Id, row: Vec, out: Outcome)
      requires Valid() && Shape(c, State()) && Owned(c, State()) && clients.Keys == reqs.Keys && !out.fault
      requires id in reqs && reqs[id].state == Decode && id in meta && id in segs && |meta[id].job.prompt| <= c.dev.pp * BLOCK
      modifies Repr()
      ensures Valid() && State() == ConfirmOne(c, old(State()), id, row, out)
    {
      var token := c.sample(meta[id].job.params, meta[id].rows + [row]);
      var (r, ev) := reqs[id].DecodeStep(token);
      hide ConfirmOne, Shape, Owned, SchedLoop.Valid;
      if ev.DecodeConfirmed? {
        GrowsIs(c, State(), id, row, out);
        hide Append;
        AppendToken(id, row, token);
        AppendShape(c, old(State()), id, row, token);
        SendToken(id, token, out.delivered);
      } else {
        EndsIs(c, State(), id, row, out);
        hide Ended;
        EndRequest(id, row, r);
        Finish(id, out);
      }
    }

    method AppendToken(id: Id, row: Vec, token: Token)
      requires Valid() && id in reqs && id in meta && id in clients && reqs[id].state == Decode
      modifies this
      ensures Valid() && State() == Append(old(State()), id, row, token).0
    {
      var e := meta[id];
      dispatched := dispatched + 1;
      reqs := reqs[id := reqs[id].DecodeStep(token).0];
      meta := meta[id := e.(rows := e.rows + [row], cur := token, generated := e.generated + [token])];
    }

    method EndRequest(id: Id, row: Vec, r: Req)
      requires Valid() && id in meta
      modifies this
      ensures Valid() && State() == Ended(old(State()), id, row, r)
    {
      dispatched := dispatched + 1;
      reqs := reqs[id := r];
      meta := meta[id := meta[id].(rows := meta[id].rows + [row])];
    }

    /** Run the decode batch in id order on the executor. */
    method RunBatch(ghost s: Sys) returns (rows: seq<Vec>)
      requires Valid() && s == State() && Books(c, s) && decoding != []
      modifies Repr()
      ensures Valid() && (State(), rows) == Ran(c, s)
    {
      BatchMembers(c, s);
      BatchFits(c, s);
      SortedSame(decoding);
      hide Books, BatchOk, BatchOf, DecodeOp, Sorted;
      decoding := Sorted(decoding);
      BatchAgain(s, State());
      var batch := BatchNow();
      assert batch == Batch(c, s);
      var r := exec.DecodeBatch(batch);
      rows := r.value;
    }

    lemma BatchAgain(s: Sys, t: Sys)
      requires forall id :: id in Sorted(s.decoding) ==> id in s.meta && id in s.reqs && id in s.segs && s.reqs[id].cached > 0
      requires t == s.(decoding := Sorted(s.decoding))
      ensures BatchOf(t, Sorted(s.decoding)) == BatchOf(s, Sorted(s.decoding))
    {
    }

    method BatchNow() returns (batch: seq<ExecReq>)
      requires forall id :: id in decoding ==> id in meta && id in reqs && id in segs && reqs[id].cached > 0
      ensures |batch| == |decoding|
      ensures batch == BatchOf(State(), decoding)
    {
      batch := [];
      var i := 0;
      while i < |decoding|
        invariant i == |batch| <= |decoding|
        invariant forall k :: 0 <= k < i ==> batch[k] == BatchOf(State(), decoding)[k]
      {
        var id := decoding[i];
        batch := batch + [ExecReq(id, meta[id].cur, reqs[id].cached - 1, reqs[id].cached, segs[id])];
        i := i + 1;
      }
    }

    /** One decode step: the batch, then one token per request in id order. */
    method DecodeAll(outs: Id -> Outcome)
      requires Valid() && Inv(c, State())
      modifies Repr()
      ensures Valid() && Inv(c, State()) && Inv(c, old(State())) && State() == SchedRuns.DecodeStep(c, old(State()), outs)
    {
      if decoding == [] {
        return;
      }
      ghost var s := State();
      RanPending(c, s);
      var ids := Sorted(decoding);
      var rows := RunBatch(s);
      ConfirmTokens(ids, rows, outs);
    }

    method ConfirmTokens(ids: seq<Id>, rows: seq<Vec>, outs: Id -> Outcome)
      requires Valid() && Inv(c, State()) && Pending(c, State(), ids, rows)
      modifies Repr()
      ensures Valid() && Inv(c, State())
      ensures Inv(c, old(State())) && Pending(c, old(State()), ids, rows)
      ensures State() == ConfirmAll(c, old(State()), ids, rows, outs)
    {
      ghost var s := State();
      var i := 0;
      while i < |ids|
        invariant i <= |ids| && Valid() && Inv(c, State())
        invariant Pending(c, State(), ids[i..], rows[i..])
        invariant ConfirmAll(c, State(), ids[i..], rows[i..], outs) == ConfirmAll(c, s, ids, rows, outs)
      {
        ghost var t := State();
        NextPending(c, t, ids[i..], rows[i..], outs);
        assert ids[i..][0] == ids[i] && rows[i..][0] == rows[i] && ids[i..][1..] == ids[i + 1..] && rows[i..][1..] == rows[i + 1..];
        ConfirmToken(ids[i], rows[i], outs(ids[i]));
        i := i + 1;
      }
      assert ids[i..] == [];
    }

    // ---- the step -----------------------------------------------------------------------------------

    /** The next victim. */
    method PreemptNext(id: Id, ghost rest: seq<Id>, ghost picks: seq<Assignment>, ghost s: Sys, ghost done: seq<Id>)
      requires Valid() && Inv(c, State()) && SelectionOk(c, State(), [id] + rest, picks) && Progress(c, s, done, [], State())
      modifies Repr()
      ensures Valid() && Inv(c, State()) && SelectionOk(c, State(), rest, picks)
      ensures Progress(c, s, done + [id], [], State())
    {
      hide Inv, SelectionOk, Progress, PreemptVictim;
      VictimNext(c, State(), [id] + rest, picks);
      assert ([id] + rest)[1..] == rest;
      VictimReach(c, s, done, State(), id);
      InDecoding(id);
      PreemptOne(id);
    }

    lemma InDecoding(id: Id)
      requires id in State().decoding
      ensures id in decoding
    {
    }

    /** The next slice. */
    method AssignNext(pick: Assignment, ghost rest: seq<Assignment>, ghost s: Sys, ghost victims: seq<Id>, ghost done: seq<Assignment>)
      requires Valid() && Inv(c, State()) && SelectionOk(c, State(), [], [pick] + rest) && Progress(c, s, victims, done, State())
      modifies Repr()
      ensures Valid() && Inv(c, State()) && SelectionOk(c, State(), [], rest)
      ensures Progress(c, s, victims, done + [pick], State())
    {
      hide Inv, SelectionOk, Progress, Assign, AssignmentOk, Answered;
      ghost var t := State();
      PickFirst(c, t, [pick] + rest);
      ghost var a := AssignOne(pick.id, pick.start, pick.end, pick.hit);
      assert ([pick] + rest)[1..] == rest;
      PickNext(c, t, [pick] + rest, a);
      AssignKeeps(c, t, a);
      PickReach(c, s, victims, done, t, pick, a);
    }

    /** Preempt the victims, then prefill the selected slices. */
    method AdmitSchedule(victims: seq<Id>, picks: seq<Assignment>)
      requires Valid() && Inv(c, State()) && SelectionOk(c, State(), victims, picks)
      modifies Repr()
      ensures Valid() && Inv(c, State()) && Progress(c, old(State()), victims, picks, State())
    {
      ghost var s := State();
      NoProgress(c, s);
      hide Inv, SelectionOk, Progress, SchedLoop.Valid, SchedLoop.State;
      assert victims[0..] == victims && victims[..0] == [];
      var i := 0;
      while i < |victims|
        invariant i <= |victims| && Valid() && Inv(c, State())
        invariant SelectionOk(c, State(), victims[i..], picks)
        invariant Progress(c, s, victims[..i], [], State())
      {
        assert victims[i..] == [victims[i]] + victims[i + 1..] && victims[..i + 1] == victims[..i] + [victims[i]];
        PreemptNext(victims[i], victims[i + 1..], picks, s, victims[..i]);
        i := i + 1;
      }
      assert victims[i..] == [] && victims[..i] == victims;
      PrefillPicks(picks, s, victims);
    }

    method PrefillPicks(picks: seq<Assignment>, ghost s: Sys, ghost victims: seq<Id>)
      requires Valid() && Inv(c, State()) && SelectionOk(c, State(), [], picks) && Progress(c, s, victims, [], State())
      modifies Repr()
      ensures Valid() && Inv(c, State()) && Progress(c, s, victims, picks, State())
    {
      hide Inv, SelectionOk, Progress, SchedLoop.Valid, SchedLoop.State;
      assert picks[0..] == picks && picks[..0] == [];
      var i := 0;
      while i < |picks|
        invariant i <= |picks| && Valid() && Inv(c, State())
        invariant SelectionOk(c, State(), [], picks[i..])
        invariant Progress(c, s, victims, picks[..i], State())
      {
        assert picks[i..] == [picks[i]] + picks[i + 1..] && picks[..i + 1] == picks[..i] + [picks[i]];
        AssignNext(picks[i], picks[i + 1..], s, victims, picks[..i]);
        i := i + 1;
      }
      assert picks[..i] == picks;
    }

    // ---- what the loop's owner may call ---------------------------------------------------------------

    /** The state is one the transition system can reach, so all that holds of every reachable
        state holds of this object. */
    ghost predicate Sound()
      reads Repr()
    {
      Valid() && Reachable(c, State())
    }

    method HandleSubmit(id: Id, job: Job)
      requires Sound() && id !in reqs && (job.prompt != [] ==> JobOk(c, job))
      modifies this
      ensures Sound() && State() == SchedSteps.Submit(c, old(State()), id, job)
    {
      ReachableNext(c, State(), Submitted(id, job));
      hide Reachable, SchedSteps.Submit;
      Submit(id, job);
    }

    method HandleAbort(id: Id)
      requires Sound()
      modifies Repr()
      ensures Sound() && State() == Abort(c, old(State()), id)
    {
      ReachableInv(c, State());
      ReachableNext(c, State(), AbortedBy(id));
      hide Reachable, Abort;
      RequestAbort(id);
    }

    /** One scheduling step: admission and prefill, then one decode step. */
    method Iterate(victims: seq<Id>, picks: seq<Assignment>, outs: Id -> Outcome) returns (ghost mid: Sys)
      requires Sound() && SelectionOk(c, State(), victims, picks)
      modifies Repr()
      ensures Sound() && Progress(c, old(State()), victims, picks, mid)
      ensures Inv(c, mid) && State() == SchedRuns.DecodeStep(c, mid, outs)
    {
      ReachableInv(c, State());
      hide Reachable, Inv, Progress, SelectionOk, SchedRuns.DecodeStep;
      ghost var s := State();
      AdmitSchedule(victims, picks);
      mid := State();
      ReachableFar(c, s, victims, picks, mid);
      ReachableNext(c, mid, Decoded(outs));
      DecodeAll(outs);
    }

    /** Isolation, for the object: what a client has received from the running loop. */
    lemma Delivers(id: Id)
      requires Sound() && !chunked && id in clients && !clients[id].restarted
      ensures |clients[id].job.prompt| > 0
      ensures clients[id].emitted <= SerialStream(c.Net(), Served(clients[id].job))
      ensures clients[id].done ==> clients[id].emitted == SerialStream(c.Net(), Served(clients[id].job))
    {
      Isolation(c, State(), id);
    }
  }
}
