/** Seats for admitted requests, over whole runs of the server.  With the prefix cache off every
    segment is one window; the first-fit pool then keeps them on a grid, the admission gate lets
    in no more requests than the grid has places, and so every slice the selector cuts is
    prefilled in its own step, preemption and chunking included. */
module Seats {
  import opened Transformer
  import opened PagedKv
  import opened Requests
  import opened SchedState
  import opened ExecSteps
  import opened SchedSteps
  import opened SchedRelease
  import opened SchedPrefill
  import opened SchedDecode
  import opened SchedRuns
  import opened SchedTheorems
  import opened Selection
  import opened StepBudget
  import opened Admission
  import opened SegmentPool
  import SchedLoop
  import EqualWindows
  import Arith

  // ---- the pool of a running loop ----------------------------------------------------------------------

  /** The cache is off and every segment starts at a multiple of the window. */
  ghost predicate OnGrid(c: Cfg, s: Sys) {
    WindowPositive(c);
    s.cache == None && forall id :: id in s.segs ==> s.segs[id] % c.W() == 0
  }

  ghost function PagesOf(s: Sys): EqualWindows.Pages {
    EqualWindows.Pages(s.x.refs, s.segs.Values)
  }

  lemma PoolGridded(c: Cfg, s: Sys)
    requires Shape(c, s) && Owned(c, s) && OnGrid(c, s)
    ensures 0 < c.W() <= c.kvPages && EqualWindows.Gridded(c.kvPages, c.W(), PagesOf(s))
  {
    WindowPositive(c);
    var w, live := c.W(), s.segs.Values;
    forall b | b in live
      ensures b % w == 0 && b + w <= c.kvPages - w
    {
      var id :| id in s.segs && s.segs[id] == b;
    }
    forall p: nat | p < c.kvPages
      ensures s.x.refs[p] == if c.kvPages - w <= p || EqualWindows.Slot(p, w) * w in live then 1 else 0
    {
      PageTaken(c, s, p);
    }
  }

  /** A page below the anchor is taken exactly when its place on the grid is some segment's. */
  lemma PageTaken(c: Cfg, s: Sys, p: nat)
    requires Shape(c, s) && Owned(c, s) && OnGrid(c, s) && p < c.kvPages && c.W() > 0
    ensures s.x.refs[p] == if AnchorBase(c) <= p || EqualWindows.Slot(p, c.W()) * c.W() in s.segs.Values then 1 else 0
  {
    var w := c.W();
    var b := EqualWindows.Slot(p, w) * w;
    if b in s.segs.Values {
      var id :| id in s.segs && s.segs[id] == b;
      EqualWindows.InSlot(p, b, w);
      assert s.owner[p] == Seg(id);
    }
    match s.owner[p]
    case Free =>
    case Anchor =>
    case Run(k) => assert false;
    case Seg(id) =>
      EqualWindows.InSlot(p, s.segs[id], w);
      assert id in s.segs && s.segs[id] == b;
  }

  lemma {:induction false} ValuesFew(m: map<Id, nat>)
    ensures |m.Values| <= |m.Keys|
    decreases |m|
  {
    if m.Keys != {} {
      var k :| k in m.Keys;
      var rest := m - {k};
      assert rest.Keys == m.Keys - {k};
      ValuesFew(rest);
      assert m.Values <= rest.Values + {m[k]} by {
        forall v | v in m.Values
          ensures v in rest.Values + {m[k]}
        {
          var j :| j in m && m[j] == v;
          if j != k {
            assert j in rest && rest[j] == v;
          }
        }
      }
      Within(m.Values, rest.Values + {m[k]});
    } else {
      assert m.Values == {};
    }
  }

  /** Fewer segments than places: a window is free. */
  lemma SeatFree(c: Cfg, s: Sys)
    requires Shape(c, s) && Owned(c, s) && OnGrid(c, s) && |s.segs| < AnchorBase(c) / c.W()
    ensures exists base :: AllZero(s.x.refs, base, c.W())
  {
    PoolGridded(c, s);
    hide Shape, Owned, OnGrid;
    EqualWindows.GridFree(c.kvPages, c.W(), PagesOf(s));
    ValuesFew(s.segs);
    assert |s.segs| == |s.segs.Keys|;
  }

  // ---- one slice ----------------------------------------------------------------------------------------

  /** The slice `[start, end)` was not put off: its aligned part, if there is any, is in the
      request's segment. */
  ghost predicate Started(prompt: nat, id: Id, start: nat, end: nat, t: Sys) {
    var aligned := if end < prompt then end / 32 * 32 else prompt;
    aligned > start ==> id in t.segs && id in t.reqs && t.reqs[id].Live() && t.reqs[id].cached == aligned
  }

  /** The segments are on the grid and belong to requests of the working set. */
  ghost predicate Placed(c: Cfg, s: Sys, est: set<Id>) {
    WindowPositive(c);
    OnGrid(c, s) && s.segs.Keys <= est && |est| <= AnchorBase(c) / c.W()
  }

  lemma SegmentForSlice(c: Cfg, s: Sys, a: Assignment, est: set<Id>)
    requires Inv(c, s) && AssignmentOk(c, s, a) && Placed(c, s, est) && a.id in est
    requires SchedLoop.Answered(c, s, a) && EndOf(s, a) > a.start
    ensures Proceeds(c, s, a)
  {
    assert IdOk(c, s, a.id);
    if s.reqs[a.id].state != Chunked {
      assert a.id !in s.segs;
      hide Inv, IdOk;
      SubsetLess(s.segs.Keys, est, a.id);
      assert Inv(c, s);
      InvOwned(c, s);
      SeatFree(c, s);
    }
  }

  lemma InvOwned(c: Cfg, s: Sys)
    requires Inv(c, s)
    ensures Shape(c, s) && Owned(c, s) && s.clients.Keys == s.reqs.Keys
  {
  }

  lemma SubsetLess(a: set<Id>, b: set<Id>, x: Id)
    requires a <= b && x in b && x !in a
    ensures |a| < |b|
  {
    Within(a, b - {x});
  }

  /** First fit puts the new segment on the grid. */
  lemma TookPlaced(c: Cfg, s: Sys, a: Assignment)
    requires Inv(c, s) && AssignmentOk(c, s, a) && OnGrid(c, s) && SchedLoop.Answered(c, s, a) && a.alloc.Some?
    ensures c.W() > 0 && a.alloc.value % c.W() == 0
  {
    InvOwned(c, s);
    hide Inv, OnGrid;
    PoolGridded(c, s);
    EqualWindows.TookOnGrid(c.kvPages, c.W(), PagesOf(s), a.alloc.value);
  }

  /** What an assignment leaves to the others: their requests, their segments and their jobs. */
  ghost predicate OthersKept(s: Sys, id: Id, t: Sys) {
    && JobsKept(s, t) && s.segs.Keys <= t.segs.Keys
    && forall o :: o in s.reqs && o != id ==> o in t.reqs && t.reqs[o] == s.reqs[o]
  }

  lemma AssignPlaced(c: Cfg, s: Sys, a: Assignment, est: set<Id>)
    requires Inv(c, s) && AssignmentOk(c, s, a) && Placed(c, s, est) && a.id in est && SchedLoop.Answered(c, s, a)
    ensures var t := Assign(c, s, a);
            && Placed(c, t, est) && OthersKept(s, a.id, t) && a.id in s.meta
            && Started(|s.meta[a.id].job.prompt|, a.id, a.start, a.end, t)
  {
    hide Inv, Assign, AssignmentOk, SchedLoop.Answered, Joins, Placed, OthersKept, Started;
    AssignJoins(c, s, a);
    JoinsKeys(c, s, a);
    SchedLoop.InvBooks(c, s);
    if EndOf(s, a) > a.start {
      SegmentForSlice(c, s, a, est);
      if s.reqs[a.id].state != Chunked {
        PlacedGrid(c, s, est);
        TookPlaced(c, s, a);
      }
      JoinsPlaced(c, s, a, EndOf(s, a), Assign(c, s, a), est);
    } else {
      NothingStarts(s, a);
    }
  }

  lemma PlacedGrid(c: Cfg, s: Sys, est: set<Id>)
    requires Placed(c, s, est)
    ensures OnGrid(c, s)
  {
  }

  lemma NothingStarts(s: Sys, a: Assignment)
    requires a.id in s.meta && EndOf(s, a) <= a.start
    ensures Started(|s.meta[a.id].job.prompt|, a.id, a.start, a.end, s) && OthersKept(s, a.id, s)
  {
  }

  lemma JoinsPlaced(c: Cfg, s: Sys, a: Assignment, end: nat, t: Sys, est: set<Id>)
    requires Joins(s, a, end, t) && Placed(c, s, est) && a.id in est && end == EndOf(s, a) && s.clients.Keys == s.reqs.Keys
    requires if s.reqs[a.id].state == Chunked then a.id in s.segs else c.W() > 0 && a.alloc.Some? && a.alloc.value % c.W() == 0
    ensures Placed(c, t, est) && OthersKept(s, a.id, t) && Started(|s.meta[a.id].job.prompt|, a.id, a.start, a.end, t)
  {
  }

  lemma JoinsKeys(c: Cfg, s: Sys, a: Assignment)
    requires Inv(c, s) && AssignmentOk(c, s, a)
    ensures s.clients.Keys == s.reqs.Keys && a.id in s.reqs && a.id in s.meta
    ensures s.reqs[a.id].state == Chunked ==> a.id in s.segs
  {
    assert IdOk(c, s, a.id);
  }

  ghost predicate JobsKept(s: Sys, t: Sys) {
    forall o :: o in s.clients ==> o in t.clients && t.clients[o].job == s.clients[o].job
  }

  lemma PreemptPlaced(c: Cfg, s: Sys, id: Id, est: set<Id>)
    requires Placed(c, s, est) && id in s.reqs && s.reqs[id].state == Decode
    ensures Placed(c, PreemptVictim(c, s, id), est) && JobsKept(s, PreemptVictim(c, s, id))
  {
    hide DropRefs, OwnWindow;
  }

  // ---- one step's victims and slices -----------------------------------------------------------------------

  /** Victims first, then slices of distinct requests of the working set. */
  ghost predicate VictimsThenPicks(s: Sys, es: seq<Event>, est: set<Id>) {
    && (forall i :: 0 <= i < |es| ==>
          es[i].PreemptedBy? || (es[i].Prefilled? && es[i].a.id in est && es[i].a.id in s.clients))
    && (forall i, j :: 0 <= i < j < |es| && es[i].Prefilled? ==> es[j].Prefilled? && es[j].a.id != es[i].a.id)
  }

  /** Every slice among the events was started by the time of `t`. */
  ghost predicate AllStarted(s: Sys, es: seq<Event>, t: Sys) {
    forall i :: 0 <= i < |es| && es[i].Prefilled? ==>
      es[i].a.id in s.clients && Started(|s.clients[es[i].a.id].job.prompt|, es[i].a.id, es[i].a.start, es[i].a.end, t)
  }

  lemma VictimsThenPicksInit(s: Sys, es: seq<Event>, est: set<Id>)
    requires es != [] && VictimsThenPicks(s, es, est)
    ensures VictimsThenPicks(s, es[..|es| - 1], est)
  {
  }

  lemma {:induction false} AllotsPlaced(c: Cfg, s0: Sys, es: seq<Event>, t: Sys, est: set<Id>)
    requires Placed(c, s0, est) && SchedLoop.Allots(c, s0, es, t) && VictimsThenPicks(s0, es, est)
    ensures Placed(c, t, est) && JobsKept(s0, t) && AllStarted(s0, es, t)
    decreases |es|
  {
    hide Placed, Steps, JobsKept, AllStarted, SchedLoop.Answered, VictimsThenPicks, SchedLoop.AllotsOne;
    if es == [] {
      NothingToStart(s0);
    } else {
      var prior, last := es[..|es| - 1], es[|es| - 1];
      var p :| SchedLoop.Allots(c, s0, prior, p) && SchedLoop.AllotsOne(c, p, last, t);
      VictimsThenPicksInit(s0, es, est);
      AllotsPlaced(c, s0, prior, p, est);
      assert es == prior + [last];
      OnePlaced(c, s0, prior, p, last, t, est);
    }
  }

  lemma NothingToStart(s: Sys)
    ensures JobsKept(s, s) && AllStarted(s, [], s)
  {
  }

  lemma OnePlaced(c: Cfg, s0: Sys, prior: seq<Event>, p: Sys, last: Event, t: Sys, est: set<Id>)
    requires Placed(c, p, est) && JobsKept(s0, p) && AllStarted(s0, prior, p) && SchedLoop.AllotsOne(c, p, last, t)
    requires VictimsThenPicks(s0, prior + [last], est)
    ensures Placed(c, t, est) && JobsKept(s0, t) && AllStarted(s0, prior + [last], t)
  {
    hide Placed, Inv, Started, AssignmentOk, Assign, PreemptVictim, SchedLoop.Answered, OthersKept, SchedRuns.DecodeStep,
         VictimsThenPicks, JobsKept, AllStarted;
    LastOfThem(s0, prior, last, est);
    if last.PreemptedBy? {
      SchedRelease.PreemptKeeps(c, p, last.id);
      PreemptPlaced(c, p, last.id, est);
      NoneStarted(s0, prior, last, p, t);
    } else {
      AssignPlaced(c, p, last.a, est);
      PromptIs(c, p, last.a.id);
      SamePrompt(s0, p, last.a.id);
      LaterStarted(s0, prior, p, last.a, t);
    }
  }

  lemma LastOfThem(s: Sys, prior: seq<Event>, last: Event, est: set<Id>)
    requires VictimsThenPicks(s, prior + [last], est)
    ensures last.PreemptedBy? || (last.Prefilled? && last.a.id in est && last.a.id in s.clients)
    ensures forall i :: 0 <= i < |prior| && prior[i].Prefilled? ==> last.Prefilled? && prior[i].a.id != last.a.id
  {
    var es := prior + [last];
    assert es[|prior|] == last;
    forall i | 0 <= i < |prior| && prior[i].Prefilled?
      ensures last.Prefilled? && prior[i].a.id != last.a.id
    {
      assert es[i] == prior[i];
    }
  }

  lemma NoneStarted(s0: Sys, prior: seq<Event>, last: Event, p: Sys, t: Sys)
    requires last.PreemptedBy? && forall i :: 0 <= i < |prior| ==> !prior[i].Prefilled?
    requires JobsKept(s0, p) && JobsKept(p, t)
    ensures JobsKept(s0, t) && AllStarted(s0, prior + [last], t)
  {
  }

  lemma SamePrompt(s: Sys, t: Sys, id: Id)
    requires JobsKept(s, t) && id in s.clients
    ensures id in t.clients && t.clients[id].job == s.clients[id].job
  {
  }

  lemma PromptIs(c: Cfg, s: Sys, id: Id)
    requires Inv(c, s) && id in s.meta
    ensures id in s.clients && s.meta[id].job == s.clients[id].job
  {
    assert IdOk(c, s, id);
  }

  /** A later slice leaves the earlier ones started. */
  lemma LaterStarted(s0: Sys, prior: seq<Event>, p: Sys, a: Assignment, t: Sys)
    requires JobsKept(s0, p) && AllStarted(s0, prior, p) && OthersKept(p, a.id, t) && a.id in s0.clients
    requires Started(|s0.clients[a.id].job.prompt|, a.id, a.start, a.end, t)
    requires forall i :: 0 <= i < |prior| && prior[i].Prefilled? ==> prior[i].a.id != a.id
    ensures JobsKept(s0, t) && AllStarted(s0, prior + [Prefilled(a)], t)
  {
  }

  // ---- every step of the server ---------------------------------------------------------------------------------

  /** The gate has counted every request that holds a segment. */
  ghost predicate Seated(c: Cfg, k: Limits, v: Server) {
    Inv(c, v.s) && OnGrid(c, v.s) && |v.est| <= AdmitCap(c, k.maxSeqs) && v.s.segs.Keys <= v.est
  }

  lemma ViewIs(s: Sys, ids: seq<Id>, chunk: nat, w: WaitingReq)
    requires Shown(s, ids) && w in WaitingViews(s, ids, chunk)
    ensures w.id in ids
  {
    var i :| 0 <= i < |ids| && WaitingViews(s, ids, chunk)[i] == w;
    assert ids[i] in ids;
  }

  lemma SlicesWorking(c: Cfg, s: Sys, ids: seq<Id>, chunk: nat, working: set<Id>)
    requires Inv(c, s) && Shown(s, ids) && NoDups(ids) && forall id :: id in ids ==> id in working
    ensures forall sl :: sl in Selected(c, s, ids, chunk).prefill ==> sl.id in working && sl.id in s.clients
  {
    InvOwned(c, s);
    ViewsDistinct(s, ids, chunk);
    PrefillIs(WaitingViews(s, ids, chunk), DecodingViews(s), Budget(c, s), 0);
    hide Inv, Select, WaitingReq.Want, WaitingViews, DecodingViews, Budget;
    forall sl | sl in Selected(c, s, ids, chunk).prefill
      ensures sl.id in working && sl.id in s.clients
    {
      var w :| w in WaitingViews(s, ids, chunk) && SliceOf(sl, w);
      ViewIs(s, ids, chunk, w);
    }
  }

  /** The events of a step, told apart. */
  lemma CarriesOrder(s: Sys, es: seq<Event>, victims: seq<Id>, picks: seq<Assignment>, est: set<Id>)
    requires SchedLoop.Carries(es, victims, picks)
    requires forall i :: 0 <= i < |picks| ==> picks[i].id in est && picks[i].id in s.clients
    requires forall i, j :: 0 <= i < j < |picks| ==> picks[i].id != picks[j].id
    ensures VictimsThenPicks(s, es, est)
    ensures forall i :: 0 <= i < |picks| ==> EventOf(es, |victims| + i, picks[i])
  {
    var n, rest := |victims|, es[|victims|..];
    forall i | n <= i < |es|
      ensures es[i].Prefilled? && es[i].a.(alloc := None) == picks[i - n] && es[i].a.id == picks[i - n].id
    {
      assert rest[i - n] == es[i];
    }
  }

  ghost predicate EventOf(es: seq<Event>, i: nat, pick: Assignment) {
    i < |es| && es[i].Prefilled? && es[i].a.(alloc := None) == pick
  }

  /** What one step starts: nothing selected is put off. */
  lemma StepStarts(c: Cfg, s: Sys, victims: seq<Id>, picks: seq<Assignment>, mid: Sys, est: set<Id>)
    requires Placed(c, s, est) && SchedLoop.Progress(c, s, victims, picks, mid)
    requires forall i :: 0 <= i < |picks| ==> picks[i].id in est && picks[i].id in s.clients
    requires forall i, j :: 0 <= i < j < |picks| ==> picks[i].id != picks[j].id
    ensures Placed(c, mid, est)
    ensures forall i :: 0 <= i < |picks| ==>
              Started(|s.clients[picks[i].id].job.prompt|, picks[i].id, picks[i].start, picks[i].end, mid)
  {
    hide Placed, Started, VictimsThenPicks, SchedLoop.Allots, SchedLoop.Carries;
    var es: seq<Event> :| SchedLoop.Carries(es, victims, picks) && SchedLoop.Allots(c, s, es, mid);
    CarriesOrder(s, es, victims, picks, est);
    AllotsPlaced(c, s, es, mid, est);
    forall i | 0 <= i < |picks|
      ensures Started(|s.clients[picks[i].id].job.prompt|, picks[i].id, picks[i].start, picks[i].end, mid)
    {
      assert EventOf(es, |victims| + i, picks[i]);
    }
  }

  lemma EstPlaces(c: Cfg, k: Limits, v: Server, granted: set<Id>)
    requires Seated(c, k, v)
    ensures var (ids, working) := Admit(v.s.waiting, v.est, granted, AdmitCap(c, k.maxSeqs));
            && Placed(c, v.s, working) && v.est <= working && |working| <= AdmitCap(c, k.maxSeqs)
            && Shown(v.s, ids) && NoDups(ids) && forall id :: id in ids ==> id in working
  {
    QueueDistinct(c, v.s);
    AdmitShown(c, v.s, v.est, granted, AdmitCap(c, k.maxSeqs));
    hide Inv, OnGrid, Shown;
    AdmitIs(v.s.waiting, v.est, granted, AdmitCap(c, k.maxSeqs));
  }

  lemma IterateStarts(c: Cfg, k: Limits, v: Server, granted: set<Id>, hits: Id -> Option<(Key, nat)>,
                      outs: Id -> Outcome, mid: Sys, w: Server)
    requires Seated(c, k, v) && Iterated(c, k, v, granted, hits, outs, mid, w)
    ensures var (ids, working) := Admit(v.s.waiting, v.est, granted, AdmitCap(c, k.maxSeqs));
            && Placed(c, mid, working) && Shown(v.s, ids)
            && AllSlicesStarted(v.s, Selected(c, v.s, ids, k.chunk).prefill, mid)
  {
    EstPlaces(c, k, v, granted);
    hide Inv, OnGrid, AdmitCap, Admit, Shown, Select, HitsOk, SchedLoop.Progress, Placed, Started, AssignmentOk, Seated,
         SchedRuns.DecodeStep;
    var (ids, working) := Admit(v.s.waiting, v.est, granted, AdmitCap(c, k.maxSeqs));
    var sel := Selected(c, v.s, ids, k.chunk);
    SeatedInv(c, k, v);
    SelectedOk(c, v.s, ids, k.chunk, hits);
    SlicesWorking(c, v.s, ids, k.chunk, working);
    var picks := Picks(sel.prefill, hits);
    forall i | 0 <= i < |picks|
      ensures picks[i].id in working && picks[i].id in v.s.clients
    {
      assert sel.prefill[i] in sel.prefill;
    }
    StepStarts(c, v.s, sel.preempted, picks, mid, working);
    forall i | 0 <= i < |sel.prefill|
      ensures SliceStarted(v.s, sel.prefill[i], mid)
    {
      assert picks[i].id == sel.prefill[i].id;
    }
  }

  ghost predicate SliceStarted(s: Sys, sl: Slice, mid: Sys) {
    sl.id in s.clients && Started(|s.clients[sl.id].job.prompt|, sl.id, sl.start, sl.end, mid)
  }

  ghost predicate AllSlicesStarted(s: Sys, slices: seq<Slice>, mid: Sys) {
    forall i :: 0 <= i < |slices| ==> SliceStarted(s, slices[i], mid)
  }

  lemma SeatedInv(c: Cfg, k: Limits, v: Server)
    requires Seated(c, k, v)
    ensures Inv(c, v.s)
  {
  }

  lemma SegmentLive(c: Cfg, s: Sys, id: Id)
    requires Inv(c, s) && id in s.segs
    ensures id in s.reqs && s.reqs[id].Live()
  {
    assert id in s.reqs && IdOk(c, s, id);
  }

  /** Ending requests gives seats back, and the gate forgets no request that holds one. */
  lemma FadesSeated(c: Cfg, s: Sys, t: Sys, est: set<Id>)
    requires Fades(s, t) && Inv(c, t) && OnGrid(c, s) && s.segs.Keys <= est
    ensures OnGrid(c, t) && t.segs.Keys <= StillLive(est, t.reqs)
  {
    hide Inv;
    forall id | id in t.segs
      ensures id in StillLive(est, t.reqs)
    {
      SegmentLive(c, t, id);
    }
  }

  lemma SubmitSeated(c: Cfg, k: Limits, v: Server, id: Id, job: Job)
    requires Seated(c, k, v) && id !in v.s.reqs && (job.prompt != [] ==> JobOk(c, job))
    ensures Seated(c, k, Server(Submit(c, v.s, id, job), v.est))
  {
    hide Inv, AdmitCap, JobOk;
    SubmitKeeps(c, v.s, id, job);
  }

  lemma AbortSeated(c: Cfg, k: Limits, v: Server, id: Id)
    requires Seated(c, k, v)
    ensures Seated(c, k, Server(Abort(c, v.s, id), StillLive(v.est, Abort(c, v.s, id).reqs)))
  {
    hide Inv, AdmitCap, Abort, Fades, OnGrid;
    KeysMatch(c, v.s);
    AbortKeeps(c, v.s, id);
    AbortFades(c, v.s, id);
    FadesSeated(c, v.s, Abort(c, v.s, id), v.est);
    Within(StillLive(v.est, Abort(c, v.s, id).reqs), v.est);
  }

  lemma IterateSeated(c: Cfg, k: Limits, v: Server, granted: set<Id>, hits: Id -> Option<(Key, nat)>,
                      outs: Id -> Outcome, mid: Sys, w: Server)
    requires Seated(c, k, v) && Iterated(c, k, v, granted, hits, outs, mid, w)
    ensures Seated(c, k, w)
  {
    IterateStarts(c, k, v, granted, hits, outs, mid, w);
    EstPlaces(c, k, v, granted);
    hide Inv, AdmitCap, Admit, Shown, HitsOk, Selected, SchedLoop.Progress, AllSlicesStarted,
         SchedRuns.DecodeStep, OnGrid, Fades;
    var working := Admit(v.s.waiting, v.est, granted, AdmitCap(c, k.maxSeqs)).1;
    DecodeKeeps(c, mid, outs);
    DecodeFades(c, mid, outs);
    FadesSeated(c, mid, w.s, working);
    Within(w.est, working);
  }

  lemma ServedSeated(c: Cfg, k: Limits, v: Server, w: Server)
    requires Seated(c, k, v) && ServedStep(c, k, v, w)
    ensures Seated(c, k, w)
  {
    hide Seated, Submit, Abort, Iterated, StillLive;
    if id: Id, job: Job :| id !in v.s.reqs && (job.prompt != [] ==> JobOk(c, job))
                           && w == Server(Submit(c, v.s, id, job), v.est) {
      SubmitSeated(c, k, v, id, job);
    } else if id: Id :| w == Server(Abort(c, v.s, id), StillLive(v.est, Abort(c, v.s, id).reqs)) {
      AbortSeated(c, k, v, id);
    } else {
      var granted, hits, outs, mid :| Iterated(c, k, v, granted, hits, outs, mid, w);
      IterateSeated(c, k, v, granted, hits, outs, mid, w);
    }
  }

  lemma CacheWasOff(s: Sys, t: Sys)
    requires Onward(s, t) && t.cache == None
    ensures s.cache == None
  {
  }

  lemma StepSeated(c: Cfg, k: Limits, v: Server, w: Server)
    requires Reachable(c, v.s) && ServedStep(c, k, v, w) && w.s.cache == None
    ensures v.s.cache == None && (Seated(c, k, v) ==> Seated(c, k, w))
  {
    hide Seated, ServedStep, Reachable, Inv, Onward;
    ReachableInv(c, v.s);
    ServedOnward(c, k, v, w);
    CacheWasOff(v.s, w.s);
    if Seated(c, k, v) {
      ServedSeated(c, k, v, w);
    }
  }

  /** With the prefix cache off, in every state of every run of the server. */
  lemma {:induction false} ServesSeated(c: Cfg, k: Limits, n: nat, w: Server)
    requires Serves(c, k, n, w) && w.s.cache == None
    ensures Seated(c, k, w)
  {
    hide Seated, ServedStep, Reachable, Initial;
    if n == 0 {
      StartsSeated(c, k, w);
    } else {
      var v :| Serves(c, k, n - 1, v) && ServedStep(c, k, v, w);
      ServesReach(c, k, n - 1, v);
      StepSeated(c, k, v, w);
      ServesSeated(c, k, n - 1, v);
    }
  }

  lemma StartsSeated(c: Cfg, k: Limits, w: Server)
    requires Initial(c, w.s) && w.est == {} && w.s.cache == None
    ensures Reachable(c, w.s) && Seated(c, k, w)
  {
    assert Reaches(c, w.s, [], w.s);
    ReachableInv(c, w.s);
    hide Inv;
  }

  /** Every state of the server is one the loop can reach. */
  lemma {:induction false} ServesReach(c: Cfg, k: Limits, n: nat, w: Server)
    requires Serves(c, k, n, w)
    ensures Reachable(c, w.s)
  {
    if n == 0 {
      assert Reaches(c, w.s, [], w.s);
    } else {
      hide ServedStep, Reachable;
      var v :| Serves(c, k, n - 1, v) && ServedStep(c, k, v, w);
      ServesReach(c, k, n - 1, v);
      ReachableInv(c, v.s);
      ServedOnward(c, k, v, w);
    }
  }

  /** With the prefix cache off no step of the server, whatever happened before, puts a slice off
      for want of a segment: once the step has admitted, every selected slice is in its
      request's segment up to its last page boundary, or to the end of its prompt. */
  lemma EverySliceStarts(c: Cfg, k: Limits, n: nat, v: Server, granted: set<Id>, hits: Id -> Option<(Key, nat)>,
                         outs: Id -> Outcome, mid: Sys, w: Server, sl: Slice)
    requires Serves(c, k, n, v) && v.s.cache == None && Iterated(c, k, v, granted, hits, outs, mid, w)
    requires sl in Selected(c, v.s, Admit(v.s.waiting, v.est, granted, AdmitCap(c, k.maxSeqs)).0, k.chunk).prefill
    ensures sl.id in v.s.clients
    ensures Started(|v.s.clients[sl.id].job.prompt|, sl.id, sl.start, sl.end, mid)
  {
    hide Seated, Serves, Reachable, AdmitCap, Admit, Selected, SchedLoop.Progress,
         SchedRuns.DecodeStep, HitsOk, Placed, Started, Inv;
    ServesSeated(c, k, n, v);
    IterateStarts(c, k, v, granted, hits, outs, mid, w);
    var slices := Selected(c, v.s, Admit(v.s.waiting, v.est, granted, AdmitCap(c, k.maxSeqs)).0, k.chunk).prefill;
    var i :| 0 <= i < |slices| && slices[i] == sl;
    assert SliceStarted(v.s, slices[i], mid);
  }
}
