/** The token budget of a scheduling step over whole runs: what it is computed from, when it
    is the free KV capacity it is documented to be, and what happens when it runs out. */
module StepBudget {
  import opened Transformer
  import opened PagedKv
  import opened Requests
  import opened SchedState
  import opened ExecSteps
  import opened SchedSteps
  import opened SchedRelease
  import opened SchedPrefill
  import opened SchedDecode
  import opened SchedConfirm
  import opened SchedRuns
  import opened SchedTheorems
  import opened Selection

  // ---- what a step may do to a request --------------------------------------------------------------

  /** Unchanged, ended with its tokens still on the device count, or still decoding. */
  predicate Ages(a: Req, b: Req) {
    b == a || (a.device <= b.device && ((a.Live() && !b.Live()) || (a.state == Decode && b.state == Decode)))
  }

  /** A decode step or an abort: nobody joins a queue or restarts, and the requests that are
      not decoding are left alone or end.  Segments are only given back. */
  ghost predicate Fades(s: Sys, t: Sys) {
    && t.reqs.Keys == s.reqs.Keys && t.clients.Keys == s.clients.Keys
    && t.arrivals == s.arrivals && t.chunked == s.chunked && (t.cache.Some? <==> s.cache.Some?)
    && (forall o :: o in t.segs ==> o in s.segs && t.segs[o] == s.segs[o])
    && (forall o :: o in t.decoding ==> o in s.decoding)
    && (forall o :: o in t.waiting ==> o in s.waiting)
    && (forall o :: o in s.reqs ==> Ages(s.reqs[o], t.reqs[o]))
    && (forall o :: o in s.clients ==> t.clients[o].restarted == s.clients[o].restarted)
    && (forall o :: o in t.meta ==> o in s.meta && (t.meta[o] == s.meta[o] || (o in s.reqs && s.reqs[o].state == Decode)))
  }

  lemma FadesTwice(s: Sys, t: Sys, u: Sys)
    requires Fades(s, t) && Fades(t, u)
    ensures Fades(s, u)
  {
    forall o | o in s.reqs
      ensures Ages(s.reqs[o], u.reqs[o])
    {
      assert Ages(s.reqs[o], t.reqs[o]) && Ages(t.reqs[o], u.reqs[o]);
    }
  }

  lemma WithoutLess(q: seq<Id>, id: Id)
    ensures forall o :: o in Without(q, id) ==> o in q
  {
  }

  lemma AbortFades(c: Cfg, s: Sys, id: Id)
    requires s.clients.Keys == s.reqs.Keys
    ensures Fades(s, Abort(c, s, id))
  {
    hide FreeSeg, Without;
    if id in s.reqs && s.reqs[id].Live() {
      AbortFields(c, s, id);
      WithoutLess(s.waiting, id);
      WithoutLess(s.decoding, id);
      FreeSegClients(c, s, id);
      FreeSegChunked(c, s.(reqs := s.reqs[id := s.reqs[id].(state := Aborted)], returned := s.returned + s.reqs[id].device), id);
    }
  }

  lemma FreeSegChunked(c: Cfg, s: Sys, id: Id)
    ensures FreeSeg(c, s, id).chunked == s.chunked
  {
  }

  lemma FreeSegClients(c: Cfg, s: Sys, id: Id)
    ensures var r := FreeSeg(c, s, id);
            && r.clients.Keys == s.clients.Keys
            && forall o :: o in s.clients ==> r.clients[o].restarted == s.clients[o].restarted
  {
  }

  lemma TerminalFades(c: Cfg, s: Sys, id: Id, row: Vec, out: Outcome)
    requires Shape(c, s) && Owned(c, s) && s.clients.Keys == s.reqs.Keys && id in s.reqs && id in s.meta && id in s.segs
    requires s.reqs[id].state == Decode && !out.fault && !s.reqs[id].DecodeStep(TokenOf(c, s, id, row)).1.DecodeConfirmed?
    requires |s.meta[id].job.prompt| <= c.dev.pp * BLOCK && s.reqs[id].device == s.reqs[id].cached
    ensures Fades(s, ConfirmOne(c, s, id, row, out))
  {
    hide ConfirmOne, RefillRelease, Shape, Owned, TakeAndFlushStore, AllFree;
    var q := s.reqs[id].DecodeStep(TokenOf(c, s, id, row)).0;
    var f := Finished(s, id, q, s.meta[id].rows + [row]);
    TerminalIs(c, s, id, row, out);
    FinishedOwned(c, s, id, q, s.meta[id].rows + [row]);
    RefillReleased(c, f, id, s.meta[id].job.prompt, out);
    WithoutLess(s.waiting, id);
    WithoutLess(s.decoding, id);
  }

  lemma FinishedOwned(c: Cfg, s: Sys, id: Id, q: Req, rows: seq<Vec>)
    requires Shape(c, s) && Owned(c, s) && id in s.reqs && id in s.meta && id in s.clients
    ensures var f := Finished(s, id, q, rows); Shape(c, f) && Owned(c, f)
  {
  }

  lemma AppendFades(c: Cfg, s: Sys, id: Id, row: Vec, token: Token)
    requires s.clients.Keys == s.reqs.Keys && id in s.reqs && id in s.meta && s.reqs[id].state == Decode
    requires s.reqs[id].device == s.reqs[id].cached && s.reqs[id].DecodeStep(token).1.DecodeConfirmed?
    ensures Fades(s, Append(s, id, row, token).0) && Fades(s, Append(s, id, row, token).1)
  {
  }

  lemma ConfirmFades(c: Cfg, s: Sys, id: Id, row: Vec, out: Outcome)
    requires Inv(c, s) && id in s.decoding
    ensures id in s.reqs && id in s.meta && id in s.segs && Fades(s, ConfirmOne(c, s, id, row, out))
  {
    DecodingState(c, s, id);
    assert IdOk(c, s, id) && s.reqs[id].device == s.reqs[id].cached && JobOk(c, s.meta[id].job);
    FaultIs(c, s, id, row, out);
    hide ConfirmOne, Abort, Shape, SingleOk, Owned, Ledger, Content, Isolated, Reqs, Append, Fades;
    if out.fault {
      AbortFades(c, s, id);
    } else if s.reqs[id].DecodeStep(TokenOf(c, s, id, row)).1.DecodeConfirmed? {
      var token := TokenOf(c, s, id, row);
      GrowsIs(c, s, id, row, out);
      AppendGrown(s, id, row, token);
      AppendFades(c, s, id, row, token);
      var s2 := Append(s, id, row, token).0;
      AbortFades(c, s2, id);
      if !out.delivered {
        FadesTwice(s, s2, Abort(c, s2, id));
      }
    } else {
      TerminalFades(c, s, id, row, out);
    }
  }

  lemma {:induction false} ConfirmAllFades(c: Cfg, s: Sys, ids: seq<Id>, rows: seq<Vec>, outs: Id -> Outcome)
    requires Inv(c, s) && Pending(c, s, ids, rows)
    ensures Fades(s, ConfirmAll(c, s, ids, rows, outs))
    decreases |ids|
  {
    if ids != [] {
      ConfirmKeeps(c, s, ids[0], rows[0], outs(ids[0]));
      ConfirmFades(c, s, ids[0], rows[0], outs(ids[0]));
      var s1 := ConfirmOne(c, s, ids[0], rows[0], outs(ids[0]));
      PendingTail(c, s, s1, ids, rows);
      hide ConfirmOne, Inv, Pending, Fades;
      ConfirmAllFades(c, s1, ids[1..], rows[1..], outs);
      FadesTwice(s, s1, ConfirmAll(c, s, ids, rows, outs));
    }
  }

  lemma ReorderFades(s: Sys, r: Sys)
    requires r == s.(x := r.x, decoding := Sorted(s.decoding))
    ensures Fades(s, r)
  {
    SortedSame(s.decoding);
  }

  lemma RanIs(c: Cfg, s: Sys)
    requires Books(c, s) && s.decoding != []
    ensures Ran(c, s).0 == s.(x := Ran(c, s).0.x, decoding := Sorted(s.decoding))
  {
    hide Queues, Reqs, Shape, SingleOk, Sorted;
  }

  lemma DecodeFades(c: Cfg, s: Sys, outs: Id -> Outcome)
    requires Inv(c, s)
    ensures Fades(s, SchedRuns.DecodeStep(c, s, outs))
  {
    if s.decoding == [] {
      assert Fades(s, s);
    } else {
      RanPending(c, s);
      RanIs(c, s);
      hide Inv, Pending, Fades, ConfirmAll, Ran, Sorted;
      var (r, rows) := Ran(c, s);
      ReorderFades(s, r);
      ConfirmAllFades(c, r, Sorted(s.decoding), rows, outs);
      FadesTwice(s, r, SchedRuns.DecodeStep(c, s, outs));
    }
  }

  // ---- what an assignment may do ----------------------------------------------------------------------

  /** At most one live request moves, and if its slice is the whole prompt it decodes now. */
  ghost predicate Joins(s: Sys, a: Assignment, end: nat, t: Sys) {
    && a.id in s.reqs && a.id in s.meta && a.id in t.reqs && a.id in s.clients
    && t.arrivals == s.arrivals && t.reqs == s.reqs[a.id := t.reqs[a.id]] && s.reqs[a.id].Live()
    && t.clients.Keys == s.clients.Keys && t.cache == s.cache
    && t.segs == (if s.reqs[a.id].state == Chunked || a.alloc.None? then s.segs else s.segs[a.id := a.alloc.value])
    && (s.reqs[a.id].state == Chunked || a.alloc.Some?) && t.reqs[a.id].cached == end && t.reqs[a.id].Live()
    && (forall o :: o in s.decoding ==> o in t.decoding)
    && (forall o :: o in s.clients ==> t.clients[o].emitted == s.clients[o].emitted && t.clients[o].done == s.clients[o].done)
    && t.chunked == (s.chunked || !(a.start == 0 && end == |s.meta[a.id].job.prompt|))
    && (forall o :: o in s.clients ==> t.clients[o].job == s.clients[o].job)
    && (forall o :: o in s.clients ==>
          t.clients[o].restarted == (s.clients[o].restarted || (o == a.id && s.reqs[o].state != Chunked && s.meta[o].generated != [])))
    && (end == |s.meta[a.id].job.prompt| ==>
          && t.reqs[a.id].state == Decode
          && (forall o :: o in t.decoding ==> o in s.decoding || o == a.id)
          && (forall o :: o in t.meta ==> o in s.meta && (o == a.id || t.meta[o] == s.meta[o])))
  }

  lemma AssignJoins(c: Cfg, s: Sys, a: Assignment)
    requires Inv(c, s) && AssignmentOk(c, s, a)
    ensures if Proceeds(c, s, a) then Joins(s, a, EndOf(s, a), Assign(c, s, a)) else Assign(c, s, a) == s
  {
    assert IdOk(c, s, a.id);
    if Proceeds(c, s, a) {
      var s1 := EntryOf(c, s, a);
      hide Inv, Dispatch, Assign, AssignmentOk, IdOk, OwnWindow, TakeRefs;
      DispatchFields(c, s1, a, EndOf(s, a));
      LandedJoins(c, s, a, EndOf(s, a), s1, Assign(c, s, a));
    }
  }

  lemma LandedJoins(c: Cfg, s: Sys, a: Assignment, end: nat, s1: Sys, r: Sys)
    requires s.clients.Keys == s.reqs.Keys && a.id in s.reqs && s.reqs[a.id].Live()
    requires Entered(c, s, a, end, s1) && Landed(s1, a, end, r)
    ensures Joins(s, a, end, r)
  {
  }

  // ---- runs: ended requests stay as they are ------------------------------------------------------------

  /** Whatever happens, requests are only added, an ended one never changes again, and the prefix
      cache stays on or off. */
  ghost predicate Onward(s: Sys, t: Sys) {
    && s.arrivals <= t.arrivals && (t.cache.Some? <==> s.cache.Some?)
    && forall o :: o in s.reqs && !s.reqs[o].Live() ==> o in t.reqs && t.reqs[o] == s.reqs[o]
  }

  lemma NextOnward(c: Cfg, s: Sys, e: Event)
    requires Inv(c, s) && Enabled(c, s, e)
    ensures Onward(s, Next(c, s, e))
  {
    hide Inv, Submit, Abort, PreemptVictim, Assign, AssignmentOk, SchedRuns.DecodeStep, Onward, JobOk;
    match e
    case Submitted(id, job) => SubmitOnward(c, s, id, job);
    case AbortedBy(id) => AbortOnward(c, s, id);
    case PreemptedBy(id) => PreemptKeeps(c, s, id); PreemptOnward(c, s, id);
    case Prefilled(a) => AssignOnward(c, s, a);
    case Decoded(outs) => DecodeOnward(c, s, outs);
  }

  lemma AbortOnward(c: Cfg, s: Sys, id: Id)
    requires Inv(c, s)
    ensures Onward(s, Abort(c, s, id))
  {
    AbortFades(c, s, id);
    hide Inv, Abort, Fades;
    FadesOnward(s, Abort(c, s, id));
  }

  lemma AssignOnward(c: Cfg, s: Sys, a: Assignment)
    requires Inv(c, s) && AssignmentOk(c, s, a)
    ensures Onward(s, Assign(c, s, a))
  {
    hide Inv, Assign, AssignmentOk;
    AssignJoins(c, s, a);
  }

  lemma DecodeOnward(c: Cfg, s: Sys, outs: Id -> Outcome)
    requires Inv(c, s)
    ensures Onward(s, SchedRuns.DecodeStep(c, s, outs))
  {
    hide Inv, SchedRuns.DecodeStep, Fades;
    DecodeFades(c, s, outs);
    FadesOnward(s, SchedRuns.DecodeStep(c, s, outs));
  }

  lemma SubmitOnward(c: Cfg, s: Sys, id: Id, job: Job)
    requires id !in s.reqs
    ensures Onward(s, Submit(c, s, id, job))
  {
  }

  lemma FadesOnward(s: Sys, t: Sys)
    requires Fades(s, t)
    ensures Onward(s, t)
  {
    forall o | o in s.reqs && !s.reqs[o].Live()
      ensures o in t.reqs && t.reqs[o] == s.reqs[o]
    {
      assert Ages(s.reqs[o], t.reqs[o]);
    }
  }

  lemma PreemptOnward(c: Cfg, s: Sys, id: Id)
    requires id in s.reqs && s.reqs[id].state == Decode
    ensures Onward(s, PreemptVictim(c, s, id))
  {
    hide DropRefs, OwnWindow;
  }

  lemma {:induction false} RunOnward(c: Cfg, s0: Sys, es: seq<Event>, s: Sys)
    requires Reaches(c, s0, es, s)
    ensures Onward(s0, s)
    decreases |es|
  {
    hide Inv, Next, Enabled;
    if es != [] {
      var prior, last := es[..|es| - 1], es[|es| - 1];
      var p :| Reaches(c, s0, prior, p) && Steps(c, p, last, s);
      RunOnward(c, s0, prior, p);
      NextOnward(c, p, last);
    }
  }

  // ---- the budget ------------------------------------------------------------------------------------------

  /** `kv_usage_tokens`: every request ever accepted counts, in whatever state. */
  function Usage(reqs: map<Id, Req>, ids: seq<Id>): nat {
    if ids == [] then 0
    else Usage(reqs, ids[..|ids| - 1]) + (var id := ids[|ids| - 1]; if id in reqs then reqs[id].device else 0)
  }

  /** The part of it that belongs to requests that have ended. */
  function Retired(reqs: map<Id, Req>, ids: seq<Id>): nat {
    if ids == [] then 0
    else
      Retired(reqs, ids[..|ids| - 1])
      + (var id := ids[|ids| - 1]; if id in reqs && !reqs[id].Live() then reqs[id].device else 0)
  }

  lemma {:induction false} UsageSplits(reqs: map<Id, Req>, ids: seq<Id>)
    ensures Usage(reqs, ids) == Unreturned(reqs, ids) + Retired(reqs, ids)
  {
    if ids != [] {
      UsageSplits(reqs, ids[..|ids| - 1]);
    }
  }

  /** Token capacity of the pool without the anchor. */
  function PoolTokens(c: Cfg): nat {
    AnchorBase(c) * BLOCK
  }

  /** The step budget as the loop computes it. */
  function Budget(c: Cfg, s: Sys): nat {
    Effective(PoolTokens(c), Usage(s.reqs, s.arrivals))
  }

  /** The step budget as it is documented: the capacity that live requests leave free. */
  function FreeTokens(c: Cfg, s: Sys): nat {
    Effective(PoolTokens(c) + s.returned, s.dispatched)
  }

  /** The computed budget is the free capacity exactly while no ended request has tokens on the
      count, or no capacity is free anyway. */
  lemma BudgetRightIff(c: Cfg, s: Sys)
    requires Reachable(c, s)
    ensures s.dispatched >= s.returned
    ensures Usage(s.reqs, s.arrivals) == s.dispatched - s.returned + Retired(s.reqs, s.arrivals)
    ensures Budget(c, s) <= FreeTokens(c, s)
    ensures Budget(c, s) == FreeTokens(c, s) <==> Retired(s.reqs, s.arrivals) == 0 || FreeTokens(c, s) == 0
  {
    TokensConserved(c, s);
    hide Reachable;
    UsageSplits(s.reqs, s.arrivals);
  }

  lemma {:induction false} RetiredSame(a: map<Id, Req>, b: map<Id, Req>, ids: seq<Id>)
    requires forall o :: o in a && !a[o].Live() ==> o in b && b[o] == a[o]
    ensures Retired(a, ids) <= Retired(b, ids)
  {
    if ids != [] {
      RetiredSame(a, b, ids[..|ids| - 1]);
    }
  }

  lemma {:induction false} RetiredMore(reqs: map<Id, Req>, ids: seq<Id>, more: seq<Id>)
    requires ids <= more
    ensures Retired(reqs, ids) <= Retired(reqs, more)
    decreases |more|
  {
    if ids == more {
    } else {
      RetiredMore(reqs, ids, more[..|more| - 1]);
    }
  }

  /** The share of ended requests never goes down. */
  lemma RetiredGrows(c: Cfg, s: Sys, es: seq<Event>, t: Sys)
    requires Reaches(c, s, es, t)
    ensures Retired(s.reqs, s.arrivals) <= Retired(t.reqs, t.arrivals)
  {
    hide Reaches;
    RunOnward(c, s, es, t);
    OnwardRetires(s, t);
  }

  lemma OnwardRetires(s: Sys, t: Sys)
    requires Onward(s, t)
    ensures Retired(s.reqs, s.arrivals) <= Retired(t.reqs, t.arrivals)
  {
    RetiredSame(s.reqs, t.reqs, s.arrivals);
    RetiredMore(t.reqs, s.arrivals, t.arrivals);
  }

  lemma {:induction false} RetiredAdds(a: map<Id, Req>, b: map<Id, Req>, id: Id, ids: seq<Id>)
    requires id in ids && id in a && a[id].Live() && id in b && !b[id].Live()
    requires forall o :: o in a && !a[o].Live() ==> o in b && b[o] == a[o]
    ensures Retired(b, ids) >= Retired(a, ids) + b[id].device
  {
    var rest := ids[..|ids| - 1];
    if id in rest {
      RetiredAdds(a, b, id, rest);
    } else {
      RetiredSame(a, b, rest);
    }
  }

  /** Whatever ends a request, all the tokens it has on the device stay on the count. */
  lemma EndRetires(c: Cfg, s: Sys, es: seq<Event>, t: Sys, id: Id)
    requires Reachable(c, s) && Reaches(c, s, es, t)
    requires id in s.reqs && s.reqs[id].Live() && id in t.reqs && !t.reqs[id].Live()
    ensures Retired(t.reqs, t.arrivals) >= Retired(s.reqs, s.arrivals) + t.reqs[id].device
  {
    TokensConserved(c, s);
    hide Reachable, Reaches;
    RunOnward(c, s, es, t);
    RetiredAdds(s.reqs, t.reqs, id, s.arrivals);
    RetiredMore(t.reqs, s.arrivals, t.arrivals);
  }

  /** Once the ended requests fill the pool on paper, no later step prefills anything, and every
      step preempts everything that decodes, however empty the pool really is. */
  lemma Starves(c: Cfg, s: Sys, es: seq<Event>, t: Sys, waiting: seq<WaitingReq>, decoding: seq<DecodingReq>)
    requires Reaches(c, s, es, t) && Retired(s.reqs, s.arrivals) >= PoolTokens(c)
    ensures Budget(c, t) == 0
    ensures var sel := Select(waiting, decoding, Budget(c, t), 0);
            sel.prefill == [] && sel.decode == [] && multiset(sel.preempted) == multiset(IdsOf(decoding))
  {
    hide Reaches, Select, IdsOf;
    RetiredGrows(c, s, es, t);
    UsageSplits(t.reqs, t.arrivals);
    NothingRuns(waiting, decoding, Budget(c, t), 0);
  }

  // ---- a run in which the two differ --------------------------------------------------------------------------

  lemma ReachableAfter(c: Cfg, s: Sys, e: Event)
    requires Reachable(c, s) && Enabled(c, s, e)
    ensures Inv(c, s) && Reachable(c, Next(c, s, e)) && Inv(c, Next(c, s, e))
  {
    hide Inv, Initial, Reaches, Enabled, Next;
    var s0, es :| Initial(c, s0) && Reaches(c, s0, es, s);
    RunExtends(c, s0, es, s, e);
    ReachableInv(c, Next(c, s, e));
  }

  ghost function Start(c: Cfg): Sys {
    Sys(Exec(BlankMem(c.W()), BlankMem(c.kvPages), TakeRefs(seq(c.kvPages, _ => 0), AnchorBase(c), c.W()), None),
        map[], map[], [], [], map[], None, 0, 0, [], map[],
        OwnWindow(seq(c.kvPages, _ => Free), AnchorBase(c), c.W(), Anchor), false)
  }

  /** The smallest job that is accepted; it needs a context of two positions. */
  const ONE: Job := Job([0], 1, [], None, 0)

  lemma StartSubmitted(c: Cfg) returns (s: Sys)
    requires c.maxLen >= 2
    ensures s == Submit(c, Start(c), 0, ONE) && Reachable(c, s)
  {
    hide OwnWindow, TakeRefs, BlankMem, Inv;
    s := Submit(c, Start(c), 0, ONE);
    assert Initial(c, Start(c)) && Reaches(c, Start(c), [], Start(c));
    ReachableAfter(c, Start(c), Submitted(0, ONE));
  }

  const WHOLE: Assignment := Assignment(0, 0, 1, Some(0), None)

  lemma FirstAssignment(c: Cfg, s: Sys)
    requires 2 * c.W() <= c.kvPages && s == Submit(c, Start(c), 0, ONE)
    ensures AssignmentOk(c, s, WHOLE) && Proceeds(c, s, WHOLE) && EndOf(s, WHOLE) == 1
    ensures s.reqs.Keys == {0} && s.meta[0].job.prompt == [0] && s.meta[0].generated == []
    ensures !s.chunked && 0 in s.clients && !s.clients[0].restarted
  {
    hide OwnWindow, BlankMem;
  }

  /** For a context of two positions, without which no job is accepted, every pool of two windows
      has a run with a request decoding after a whole-prompt prefill, so
      what is claimed of such states is claimed of something. */
  lemma SubmittedDecodes(c: Cfg) returns (s: Sys)
    requires 2 * c.W() <= c.kvPages && c.maxLen >= 2
    ensures Reachable(c, s) && s.reqs.Keys == {0} && s.reqs[0].state == Decode
    ensures !s.chunked && 0 in s.clients && !s.clients[0].restarted
  {
    hide Start, Submit, Reachable, Inv, AssignmentOk, Proceeds, Assign;
    var p := StartSubmitted(c);
    FirstAssignment(c, p);
    ReachableInv(c, p);
    AssignJoins(c, p, WHOLE);
    ReachableAfter(c, p, Prefilled(WHOLE));
    s := Assign(c, p, WHOLE);
  }

  lemma DecodesNow(c: Cfg, s: Sys, id: Id)
    requires Inv(c, s) && id in s.reqs && s.reqs[id].state == Decode
    ensures id in s.decoding && s.reqs[id].device > 0
  {
    assert IdOk(c, s, id);
    assert id in s.meta;
  }

  /** There is a run after which nothing is live and nothing is owed, yet the step budget is
      smaller than the pool. */
  lemma BudgetCanLeak(c: Cfg) returns (s: Sys)
    requires 2 * c.W() <= c.kvPages && c.maxLen >= 2
    ensures Reachable(c, s) && s.waiting == [] && s.decoding == [] && s.dispatched == s.returned
    ensures Budget(c, s) < FreeTokens(c, s) == PoolTokens(c)
  {
    hide Reachable, Inv, Abort, Reaches, Usage, Retired;
    var p := SubmittedDecodes(c);
    ReachableInv(c, p);
    DecodesNow(c, p, 0);
    s := AbortLast(c, p, 0);
    NothingLeft(c, s);
    BudgetRightIff(c, s);
  }

  lemma AbortLast(c: Cfg, p: Sys, id: Id) returns (s: Sys)
    requires Reachable(c, p) && p.reqs.Keys == {id} && p.reqs[id].Live() && p.reqs[id].device > 0
    ensures Reachable(c, s) && (forall o :: o in s.reqs ==> !s.reqs[o].Live()) && Retired(s.reqs, s.arrivals) > 0
  {
    hide Reachable, Inv, FreeSeg, Unseat, Retired;
    s := Abort(c, p, id);
    ReachableAfter(c, p, AbortedBy(id));
    KeysMatch(c, p);
    AbortFields(c, p, id);
    OneStep(c, p, AbortedBy(id), s);
    EndRetires(c, p, [AbortedBy(id)], s, id);
  }

  lemma KeysMatch(c: Cfg, s: Sys)
    requires Inv(c, s)
    ensures s.clients.Keys == s.reqs.Keys
  {
  }

  lemma OneStep(c: Cfg, p: Sys, e: Event, s: Sys)
    requires Steps(c, p, e, s)
    ensures Reaches(c, p, [e], s)
  {
    hide Steps;
    assert [e][..|[e]| - 1] == [];
    assert Reaches(c, p, [], p);
  }

  lemma NothingLeft(c: Cfg, s: Sys)
    requires Reachable(c, s) && forall id :: id in s.reqs ==> !s.reqs[id].Live()
    ensures s.waiting == [] && s.decoding == [] && s.dispatched == s.returned
  {
    ReachableInv(c, s);
    assert s.waiting != [] ==> s.waiting[0] in s.meta;
    assert s.decoding != [] ==> s.decoding[0] in s.meta;
    TokensConserved(c, s);
    forall id | id in s.reqs
      ensures id !in s.waiting && id !in s.decoding
    {
      SegmentsConserved(c, s, id);
    }
  }
}
