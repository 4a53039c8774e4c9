/** The end of the step budget.  Because ended requests stay on the count, a server that does
    nothing but complete jobs normally reaches a state in which the budget is 0 for good: nothing
    is live, the pool is empty, and no job submitted from then on ever receives a token. */
module Starvation {
  import opened Transformer
  import opened PagedKv
  import opened Requests
  import opened SchedState
  import opened ExecSteps
  import opened SchedSteps
  import opened SchedRelease
  import opened SchedPrefill
  import opened SchedDecode
  import opened SchedConfirm
  import opened SchedRuns
  import opened SchedTheorems
  import opened Selection
  import opened StepBudget
  import opened Admission
  import opened Seats
  import opened Liveness
  import SchedLoop
  import Arith
  import Estimates

  // ---- a step with the budget gone ---------------------------------------------------------------------

  /** The clients of `t` have heard what they had heard in `s`, new ones nothing. */
  ghost predicate Mute(s: Sys, t: Sys) {
    && s.clients.Keys <= t.clients.Keys
    && forall o :: o in t.clients ==> t.clients[o].emitted == if o in s.clients then s.clients[o].emitted else []
  }

  lemma MuteTwice(s: Sys, t: Sys, u: Sys)
    requires Mute(s, t) && Mute(t, u)
    ensures Mute(s, u)
  {
  }

  lemma PreemptMutes(c: Cfg, s: Sys, id: Id)
    requires id in s.reqs && s.reqs[id].state == Decode && id in s.clients
    ensures Mute(s, PreemptVictim(c, s, id))
    ensures forall o :: o in PreemptVictim(c, s, id).decoding <==> o in s.decoding && o != id
  {
    hide DropRefs, OwnWindow;
  }

  lemma {:induction false} VictimsGone(c: Cfg, s: Sys, es: seq<Event>, t: Sys)
    requires Reaches(c, s, es, t) && forall i :: 0 <= i < |es| ==> es[i].PreemptedBy?
    ensures Mute(s, t)
    ensures forall o :: o in t.decoding ==> o in s.decoding && forall i :: 0 <= i < |es| ==> es[i].id != o
    decreases |es|
  {
    hide Inv, PreemptVictim, Mute;
    if es == [] {
      SameMute(s);
    } else {
      var prior, last := es[..|es| - 1], es[|es| - 1];
      var p :| Reaches(c, s, prior, p) && Steps(c, p, last, t);
      VictimsGone(c, s, prior, p);
      KeysMatch(c, p);
      PreemptKeeps(c, p, last.id);
      PreemptMutes(c, p, last.id);
      MuteTwice(s, p, t);
    }
  }

  lemma SameMute(s: Sys)
    ensures Mute(s, s)
  {
  }

  /** When everybody who decodes is a victim and nobody starts, nobody decodes. */
  lemma AllVictims(c: Cfg, s: Sys, victims: seq<Id>, mid: Sys)
    requires SchedLoop.Progress(c, s, victims, [], mid) && multiset(victims) == multiset(s.decoding)
    ensures mid.decoding == [] && Mute(s, mid)
  {
    hide Reaches, SchedLoop.Allots, Mute;
    var es: seq<Event> :| SchedLoop.Carries(es, victims, []) && SchedLoop.Allots(c, s, es, mid);
    SchedLoop.AllotsReaches(c, s, es, mid);
    VictimsGone(c, s, es, mid);
    forall o | o in s.decoding
      ensures exists i :: 0 <= i < |es| && es[i].id == o
    {
      assert o in multiset(s.decoding);
      assert o in multiset(victims);
      var i :| 0 <= i < |victims| && victims[i] == o;
      assert es[i].id == o;
    }
    FirstIn(mid.decoding);
  }

  lemma FirstIn(q: seq<Id>)
    ensures q == [] || q[0] in q
  {
  }

  /** Without a budget a scheduling step gives nobody a token. */
  lemma DryStep(c: Cfg, k: Limits, v: Server, w: Server)
    requires Reachable(c, v.s) && Retired(v.s.reqs, v.s.arrivals) >= PoolTokens(c) && Scheduled(c, k, v, w)
    ensures Mute(v.s, w.s)
  {
    hide Inv, Reachable, Admit, Select, HitsOk, SchedLoop.Progress, Mute, DecodingViews, WaitingViews, AdmitCap;
    var granted, hits, outs, mid :| Iterated(c, k, v, granted, hits, outs, mid, w);
    var ids := Admit(v.s.waiting, v.est, granted, AdmitCap(c, k.maxSeqs)).0;
    UsageSplits(v.s.reqs, v.s.arrivals);
    NothingRuns(WaitingViews(v.s, ids, k.chunk), DecodingViews(v.s), Budget(c, v.s), 0);
    assert Picks([], hits) == [];
    AllVictims(c, v.s, Selected(c, v.s, ids, k.chunk).preempted, mid);
  }

  lemma CommandMutes(c: Cfg, v: Server, w: Server)
    requires Inv(c, v.s) && Commanded(c, v, w)
    ensures Mute(v.s, w.s)
  {
    hide Inv, Submit, Abort, StillLive, JobOk;
    KeysMatch(c, v.s);
    if id: Id, job: Job :| id !in v.s.reqs && (job.prompt != [] ==> JobOk(c, job))
                           && w == Server(Submit(c, v.s, id, job), v.est) {
      SubmitMutes(c, v.s, id, job);
    } else {
      var id: Id :| w == Server(Abort(c, v.s, id), StillLive(v.est, Abort(c, v.s, id).reqs));
      AbortMutes(c, v.s, id);
    }
  }

  lemma SubmitMutes(c: Cfg, s: Sys, id: Id, job: Job)
    requires id !in s.reqs && s.clients.Keys == s.reqs.Keys
    ensures Mute(s, Submit(c, s, id, job))
  {
  }

  lemma AbortMutes(c: Cfg, s: Sys, id: Id)
    requires s.clients.Keys == s.reqs.Keys
    ensures Mute(s, Abort(c, s, id))
  {
    hide FreeSeg;
    if id in s.reqs && s.reqs[id].Live() {
      AbortFields(c, s, id);
      FreeSegMutes(c, s, id);
    }
  }

  lemma FreeSegMutes(c: Cfg, s: Sys, id: Id)
    ensures FreeSeg(c, s, id).clients.Keys == s.clients.Keys
    ensures forall o :: o in s.clients ==> FreeSeg(c, s, id).clients[o].emitted == s.clients[o].emitted
  {
  }

  /** Once the ended requests fill the pool on paper, no continuation of the run gives any client
      a token: those of earlier jobs keep what they have, those of later jobs get nothing. */
  lemma {:induction false} DryForever(c: Cfg, k: Limits, n0: nat, v: Server, n: nat, m: nat, w: Server)
    requires Serves(c, k, n0, v) && Retired(v.s.reqs, v.s.arrivals) >= PoolTokens(c) && Continues(c, k, v, n, m, w)
    ensures Mute(v.s, w.s)
  {
    hide Serves, Commanded, Scheduled, Mute, Reachable, Inv, Onward, Retired, PoolTokens;
    if n == 0 {
      SameMute(v.s);
    } else if u :| Continues(c, k, v, n - 1, m, u) && Commanded(c, u, w) {
      DryForever(c, k, n0, v, n - 1, m, u);
      DryBefore(c, k, n0, v, n - 1, m, u);
      CommandMutes(c, u, w);
      MuteTwice(v.s, u.s, w.s);
    } else {
      var u :| Continues(c, k, v, n - 1, m - 1, u) && Scheduled(c, k, u, w);
      DryForever(c, k, n0, v, n - 1, m - 1, u);
      DryBefore(c, k, n0, v, n - 1, m - 1, u);
      DryStep(c, k, u, w);
      MuteTwice(v.s, u.s, w.s);
    }
  }

  lemma DryBefore(c: Cfg, k: Limits, n0: nat, v: Server, n: nat, m: nat, u: Server)
    requires Serves(c, k, n0, v) && Retired(v.s.reqs, v.s.arrivals) >= PoolTokens(c) && Continues(c, k, v, n, m, u)
    ensures Reachable(c, u.s) && Inv(c, u.s) && Retired(u.s.reqs, u.s.arrivals) >= PoolTokens(c)
  {
    hide Serves, Continues, Reachable, Inv, Onward;
    ContinuesServes(c, k, n0, v, n, m, u);
    ServesReach(c, k, n0 + n, u);
    ReachableInv(c, u.s);
    ContinuesOnward(c, k, n0, v, n, m, u);
    OnwardRetires(v.s, u.s);
  }

  // ---- a batch without faults ends nobody by force -----------------------------------------------------------

  ghost predicate Unforced(s: Sys, t: Sys) {
    forall o :: o in s.reqs && s.reqs[o].state != Aborted ==> o in t.reqs && t.reqs[o].state != Aborted
  }

  lemma AppendUnforced(s: Sys, id: Id, row: Vec, token: Token)
    requires id in s.reqs && id in s.meta && id in s.clients && s.reqs[id].state == Decode
    requires s.reqs[id].DecodeStep(token).1.DecodeConfirmed?
    ensures Unforced(s, Append(s, id, row, token).1)
  {
  }

  lemma TerminalUnforced(c: Cfg, s: Sys, id: Id, row: Vec, out: Outcome)
    requires Shape(c, s) && Owned(c, s) && s.clients.Keys == s.reqs.Keys && id in s.reqs && id in s.meta && id in s.segs
    requires JobOk(c, s.meta[id].job) && s.reqs[id].state == Decode && !out.fault
    requires !s.reqs[id].DecodeStep(TokenOf(c, s, id, row)).1.DecodeConfirmed?
    ensures Unforced(s, ConfirmOne(c, s, id, row, out))
  {
    hide ConfirmOne, RefillRelease, Shape, Owned, TakeAndFlushStore;
    TerminalGone(c, s, id, row, out);
  }

  lemma ConfirmUnforced(c: Cfg, s: Sys, id: Id, row: Vec, out: Outcome)
    requires Inv(c, s) && id in s.decoding && !out.fault && out.delivered
    ensures id in s.reqs && id in s.meta && id in s.segs && Unforced(s, ConfirmOne(c, s, id, row, out))
  {
    DecodingState(c, s, id);
    assert IdOk(c, s, id) && JobOk(c, s.meta[id].job);
    FaultIs(c, s, id, row, out);
    hide ConfirmOne, Shape, SingleOk, Owned, Ledger, Content, Isolated, Reqs, Append, Unforced;
    if s.reqs[id].DecodeStep(TokenOf(c, s, id, row)).1.DecodeConfirmed? {
      GrowsIs(c, s, id, row, out);
      AppendUnforced(s, id, row, TokenOf(c, s, id, row));
    } else {
      TerminalUnforced(c, s, id, row, out);
    }
  }

  lemma {:induction false} ConfirmAllUnforced(c: Cfg, s: Sys, ids: seq<Id>, rows: seq<Vec>, outs: Id -> Outcome)
    requires Inv(c, s) && Pending(c, s, ids, rows) && forall id :: !outs(id).fault && outs(id).delivered
    ensures Unforced(s, ConfirmAll(c, s, ids, rows, outs))
    decreases |ids|
  {
    if ids != [] {
      SchedLoop.NextPending(c, s, ids, rows, outs);
      ConfirmUnforced(c, s, ids[0], rows[0], outs(ids[0]));
      ConfirmAllUnforced(c, ConfirmOne(c, s, ids[0], rows[0], outs(ids[0])), ids[1..], rows[1..], outs);
    }
  }

  lemma DecodeUnforced(c: Cfg, s: Sys, outs: Id -> Outcome)
    requires Inv(c, s) && forall id :: !outs(id).fault && outs(id).delivered
    ensures Unforced(s, SchedRuns.DecodeStep(c, s, outs))
  {
    if s.decoding != [] {
      RanPending(c, s);
      RanIs(c, s);
      hide Inv, Pending, ConfirmAll, Ran, Sorted;
      ConfirmAllUnforced(c, Ran(c, s).0, Sorted(s.decoding), Ran(c, s).1, outs);
    }
  }

  // ---- one job, start to end ---------------------------------------------------------------------------------

  /** An accepted job that stops at the first token it samples. */
  ghost function Hushed(c: Cfg, eos: Option<Token>): Job {
    ONE.(stop := [[NextToken(c.Net(), ONE, [])]], eos := eos)
  }

  lemma HushedSilent(c: Cfg, eos: Option<Token>)
    ensures SerialStream(c.Net(), Served(Hushed(c, eos))) == []
  {
    var job, t := Hushed(c, eos), NextToken(c.Net(), ONE, []);
    assert NonEmpty(job.stop) == job.stop by {
      NonEmptyId(job.stop);
    }
    assert NextToken(c.Net(), job, []) == t;
    assert EndsWith([] + [t], [t]);
    assert AnySuffix([] + [t], job.stop);
  }

  lemma HushedFits(c: Cfg, eos: Option<Token>)
    requires c.maxLen >= 2
    ensures JobOk(c, Hushed(c, eos))
  {
  }

  /** Nothing is live, and every job so far was accepted and completed normally. */
  ghost predicate Resting(c: Cfg, v: Server, eos: Option<Token>) {
    && Reachable(c, v.s) && Inv(c, v.s) && Fresh(v.s) && v.s.cache == None && v.est == {}
    && (forall o :: o in v.s.reqs ==> v.s.reqs[o].state == Done)
    && forall o :: o in v.s.clients ==> v.s.clients[o].job == Hushed(c, eos)
  }

  lemma {:induction false} Above(ids: set<Id>) returns (b: Id)
    ensures forall o :: o in ids ==> o < b
  {
    b := 0;
    if ids != {} {
      var x :| x in ids;
      var rest := ids - {x};
      var most := Above(rest);
      b := if most > x then most else x + 1;
      assert forall o :: o in ids ==> o == x || o in rest;
    }
  }

  lemma {:induction false} RetiredFrame(a: map<Id, Req>, b: map<Id, Req>, ids: seq<Id>)
    requires forall o :: o in ids ==> (o in a <==> o in b) && (o in a ==> a[o] == b[o])
    ensures Retired(a, ids) == Retired(b, ids)
  {
    if ids != [] {
      assert forall o :: o in ids[..|ids| - 1] ==> o in ids;
      RetiredFrame(a, b, ids[..|ids| - 1]);
      assert ids[|ids| - 1] in ids;
    }
  }

  lemma SubmitRetires(c: Cfg, s: Sys, id: Id, job: Job)
    requires Inv(c, s) && id !in s.reqs && job.prompt != []
    ensures Retired(Submit(c, s, id, job).reqs, Submit(c, s, id, job).arrivals) == Retired(s.reqs, s.arrivals)
  {
    var u := Submit(c, s, id, job);
    assert Queues(s);
    hide Inv, Queues;
    ArrivedKnown(c, s);
    RetiredFrame(s.reqs, u.reqs, s.arrivals);
    assert u.arrivals[..|u.arrivals| - 1] == s.arrivals;
  }

  lemma ArrivedKnown(c: Cfg, s: Sys)
    requires Inv(c, s)
    ensures forall o :: o in s.arrivals <==> o in s.reqs
  {
  }

  /** A request waiting alone on a resting server. */
  ghost predicate Lone(c: Cfg, v: Server, id: Id, eos: Option<Token>) {
    && Reachable(c, v.s) && Inv(c, v.s) && Fresh(v.s) && v.s.cache == None && v.est == {}
    && v.s.waiting == [id] && v.s.decoding == [] && id in v.s.clients && v.s.clients[id].job == Hushed(c, eos)
    && id in v.s.reqs && v.s.reqs[id].Live()
    && (forall o :: o in v.s.reqs && o != id ==> v.s.reqs[o].state == Done)
    && forall o :: o in v.s.clients ==> v.s.clients[o].job == Hushed(c, eos)
  }

  lemma RestingEmpty(c: Cfg, eos: Option<Token>, v: Server)
    requires Resting(c, v, eos)
    ensures v.s.waiting == [] && v.s.decoding == []
  {
    hide Reachable, Inv, Fresh;
    NothingLeft(c, v.s);
  }

  lemma SubmitAlone(c: Cfg, k: Limits, eos: Option<Token>, n: nat, v: Server, id: Id) returns (u: Server)
    requires Serves(c, k, n, v) && Resting(c, v, eos) && id !in v.s.reqs && c.maxLen >= 2
    ensures Serves(c, k, n + 1, u) && Lone(c, u, id, eos)
    ensures Retired(u.s.reqs, u.s.arrivals) == Retired(v.s.reqs, v.s.arrivals)
  {
    hide Serves, Reachable, Inv, Fresh, Retired, JobOk;
    var job := Hushed(c, eos);
    HushedFits(c, eos);
    RestingEmpty(c, eos, v);
    u := Server(Submit(c, v.s, id, job), v.est);
    assert Commanded(c, v, u);
    SubmitKeeps(c, v.s, id, job);
    KeysMatch(c, v.s);
    SubmitFresh(c, v.s, id, job);
    SubmitRetires(c, v.s, id, job);
    ServesNext(c, k, n, v, u);
    ServesReach(c, k, n + 1, u);
  }

  lemma LoneSeated(c: Cfg, k: Limits, eos: Option<Token>, u: Server, id: Id)
    requires Lone(c, u, id, eos)
    ensures Seated(c, k, u)
  {
    hide Reachable, Fresh, AdmitCap;
    NoSegments(c, u.s, id);
  }

  lemma NoSegments(c: Cfg, s: Sys, id: Id)
    requires Inv(c, s) && Fresh(s) && s.waiting == [id] && s.decoding == []
    ensures s.segs.Keys == {}
  {
    hide Shape, SingleOk, Owned, Ledger, Content, Isolated;
    assert Queues(s) && id in s.meta && IdOk(c, s, id);
    assert s.meta.Keys == {id};
  }

  lemma AloneAdmitted(id: Id, cap: nat)
    requires cap >= 1
    ensures Admit([id], {}, {id}, cap) == ([id], {id})
  {
    var q, none: set<Id> := [id], {};
    assert q[1..] == [] && none + {q[0]} == {id} && |{id}| == 1;
    assert Admit(q[1..], none + {q[0]}, {id}, cap) == ([], {id});
    var rest: seq<Id> := [];
    assert [q[0]] + rest == [id];
    assert Admit(q, none, {id}, cap) == ([q[0]] + rest, {id});
  }

  lemma PlaceForOne(c: Cfg, k: Limits)
    requires 2 * c.W() <= c.kvPages && k.maxSeqs >= 1
    ensures AdmitCap(c, k.maxSeqs) >= 1
  {
    WindowPositive(c);
    Arith.DivMono(c.W(), AnchorBase(c), c.W());
    Arith.MulDiv(1, c.W());
  }

  /** The selector is shown one request that wants one token. */
  lemma LoneShown(c: Cfg, k: Limits, eos: Option<Token>, u: Server, id: Id)
    requires Lone(c, u, id, eos) && k.chunk >= 1
    ensures Shown(u.s, [id])
    ensures var views := WaitingViews(u.s, [id], k.chunk);
            && |views| == 1 && views[0].id == id && views[0].cached == 0 && views[0].Want() == 1
            && Wants(views) == 1 && DistinctIds(views)
  {
    hide Reachable, Inv, Fresh, WaitingReq.Want;
    LoneWaits(c, eos, u, id);
    WantIs(c, u.s, id, k.chunk);
    var views := WaitingViews(u.s, [id], k.chunk);
    assert views[1..] == [];
    assert Wants(views) == views[0].Want() + Wants([]);
  }

  /** With a budget, one request that wants one token gets it. */
  lemma OneSlice(views: seq<WaitingReq>, decoding: seq<DecodingReq>, budget: nat, id: Id)
    requires |views| == 1 && views[0].id == id && views[0].cached == 0 && views[0].Want() == 1
    requires Wants(views) == 1 && DistinctIds(views) && decoding == [] && budget >= 1
    ensures var sel := Select(views, decoding, budget, 0);
            sel.preempted == [] && Slice(id, 0, 1) in sel.prefill && forall sl :: sl in sel.prefill ==> sl == Slice(id, 0, 1)
  {
    hide *;
    assert Effective(budget, 0) >= 1 by {
      BudgetWhole(budget);
    }
    WholeIff(views, decoding, budget, 0);
    PrefillIs(views, decoding, budget, 0);
    OnlySlice(views, Select(views, decoding, budget, 0).prefill, id);
  }

  lemma BudgetWhole(budget: nat)
    ensures Effective(budget, 0) == budget
  {
  }

  lemma OnlySlice(views: seq<WaitingReq>, ss: seq<Slice>, id: Id)
    requires |views| == 1 && views[0].id == id && views[0].cached == 0 && views[0].Want() == 1
    requires AllWhole(views, ss) && forall sl :: sl in ss ==> exists w :: w in views && SliceOf(sl, w)
    ensures Slice(id, 0, 1) in ss && forall sl :: sl in ss ==> sl == Slice(id, 0, 1)
  {
    hide WaitingReq.Want;
    assert views[0] in views;
  }

  /** The estimate gates of the loop, as its configuration sets them. */
  function GateOf(c: Cfg, k: Limits): Estimates.Gate {
    Estimates.Gate(AnchorBase(c), BLOCK, AdmitCap(c, k.maxSeqs), PoolTokens(c), 2)
  }

  /** The gates measure against the same pool as the step budget, the one beside the anchor. */
  lemma GateIsPool(c: Cfg, k: Limits)
    ensures var g := GateOf(c, k);
            && g.totalPages + c.W() == c.kvPages && g.totalPages * g.pageSize == g.batchTokens == PoolTokens(c)
            && g.maxReqs <= k.maxSeqs && g.multiplier == 2
  {
  }

  /** They let the lone request through, busy or not and whatever the average output length. */
  lemma LonePasses(c: Cfg, k: Limits, busy: bool, ema: nat)
    requires 2 * c.W() <= c.kvPages && k.maxSeqs >= 1 && k.chunk >= 1
    ensures var i := Estimates.Input(|ONE.prompt|, ONE.maxTokens, 0, 0, 0, k.chunk, busy, ema, 16);
            Estimates.CheckAdmission([Estimates.EstimateOf(i)], Some(1), 0, busy, GateOf(c, k)) == Estimates.Verdict.Admitted
  {
    PlaceForOne(c, k);
    WindowPositive(c);
    var i := Estimates.Input(|ONE.prompt|, ONE.maxTokens, 0, 0, 0, k.chunk, busy, ema, 16);
    var e := Estimates.EstimateOf(i);
    assert e.a == 2 && e.b <= 17;
    Estimates.Single(e);
    Estimates.PeakTotals([e]);
    Estimates.AdmittedIff([e], Some(1), 0, busy, GateOf(c, k));
  }

  /** While a token of budget is left the selector takes the lone prompt as a whole. */
  lemma LoneSelected(c: Cfg, k: Limits, eos: Option<Token>, u: Server, id: Id)
    requires Lone(c, u, id, eos) && k.chunk >= 1 && Retired(u.s.reqs, u.s.arrivals) < PoolTokens(c)
    ensures Shown(u.s, [id])
    ensures var sel := Selected(c, u.s, [id], k.chunk);
            sel.preempted == [] && Slice(id, 0, 1) in sel.prefill && forall sl :: sl in sel.prefill ==> sl == Slice(id, 0, 1)
  {
    hide Lone, Reachable, Inv, Fresh, Select, WaitingReq.Want, Wants, Retired, PoolTokens, Budget, WaitingViews,
         DistinctIds;
    LoneShown(c, k, eos, u, id);
    LoneParts(c, eos, u, id);
    BudgetLeft(c, u);
    OneSlice(WaitingViews(u.s, [id], k.chunk), DecodingViews(u.s), Budget(c, u.s), id);
  }

  lemma LoneWaits(c: Cfg, eos: Option<Token>, u: Server, id: Id)
    requires Lone(c, u, id, eos)
    ensures id in u.s.meta && u.s.meta[id].job == Hushed(c, eos) && u.s.reqs[id].cached == 0
  {
    hide Reachable;
    assert IdOk(c, u.s, id);
  }

  lemma BudgetLeft(c: Cfg, u: Server)
    requires Inv(c, u.s) && Fresh(u.s) && u.s.decoding == [] && Retired(u.s.reqs, u.s.arrivals) < PoolTokens(c)
    ensures Budget(c, u.s) >= 1
  {
    hide Inv, Fresh, Retired, Usage;
    UsageBound(c, u.s);
  }

  /** The step that serves the lone request: it decodes in that step, and being allowed no token
      it has completed at its end. */
  lemma LoneServed(c: Cfg, k: Limits, eos: Option<Token>, n: nat, u: Server, id: Id) returns (w: Server)
    requires 2 * c.W() <= c.kvPages && k.maxSeqs >= 1 && k.chunk >= 1
    requires Serves(c, k, n, u) && Lone(c, u, id, eos) && Retired(u.s.reqs, u.s.arrivals) < PoolTokens(c)
    ensures Serves(c, k, n + 1, w) && Resting(c, w, eos)
    ensures Retired(w.s.reqs, w.s.arrivals) > Retired(u.s.reqs, u.s.arrivals)
  {
    hide Serves, Reachable, Inv, Fresh, Retired, PoolTokens, AdmitCap, Iterated, Commanded, Lone, Resting, HitsOk;
    var hits: Id -> Option<(Key, nat)> := o => None;
    var outs: Id -> Outcome := o => Outcome(false, true, [], false);
    LoneParts(c, eos, u, id);
    NoHits(c, u.s, hits);
    var mid: Sys;
    mid, w := NeverStuck(c, k, u, {id}, hits, outs);
    StepIsServed(c, k, u, {id}, hits, outs, mid, w);
    ServesNext(c, k, n, u, w);
    ServesReach(c, k, n + 1, w);
    LoneStarts(c, k, eos, u, id, hits, outs, mid, w);
    LoneEnds(c, eos, u, id, outs, mid, w);
  }

  lemma LoneParts(c: Cfg, eos: Option<Token>, u: Server, id: Id)
    requires Lone(c, u, id, eos)
    ensures Reachable(c, u.s) && Inv(c, u.s) && Fresh(u.s) && u.s.cache == None && u.est == {}
    ensures u.s.waiting == [id] && u.s.decoding == [] && id in u.s.clients && u.s.clients[id].job == Hushed(c, eos)
    ensures id in u.s.reqs && u.s.reqs[id].Live()
  {
    hide Reachable, Inv, Fresh;
  }

  lemma NoHits(c: Cfg, s: Sys, hits: Id -> Option<(Key, nat)>)
    requires forall o :: hits(o) == None
    ensures HitsOk(c, s, hits)
  {
  }

  /** After admission the request decodes, with its one cell. */
  lemma LoneStarts(c: Cfg, k: Limits, eos: Option<Token>, u: Server, id: Id, hits: Id -> Option<(Key, nat)>,
                   outs: Id -> Outcome, mid: Sys, w: Server)
    requires 2 * c.W() <= c.kvPages && k.maxSeqs >= 1 && k.chunk >= 1
    requires Lone(c, u, id, eos) && Retired(u.s.reqs, u.s.arrivals) < PoolTokens(c)
    requires Iterated(c, k, u, {id}, hits, outs, mid, w)
    ensures Inv(c, mid) && Fresh(mid) && Quiet(u.s, mid) && Onward(u.s, mid)
    ensures id in mid.decoding && id in mid.reqs && mid.reqs[id].device >= 1 && mid.reqs[id].state == Decode
    ensures w.s == SchedRuns.DecodeStep(c, mid, outs) && w.est == StillLive({id}, w.s.reqs)
  {
    hide Reachable, Inv, Fresh, Retired, PoolTokens, AdmitCap, Selected, HitsOk, SchedLoop.Progress, Lone, Seated, Placed,
         Started, Quiet, Onward, WholePrompt, SchedRuns.DecodeStep, Admit, AllSlicesStarted;
    LoneParts(c, eos, u, id);
    PlaceForOne(c, k);
    AloneAdmitted(id, AdmitCap(c, k.maxSeqs));
    LoneSeated(c, k, eos, u, id);
    LoneSelected(c, k, eos, u, id);
    IterateStarts(c, k, u, {id}, hits, outs, mid, w);
    var sel := Selected(c, u.s, [id], k.chunk);
    ProgressQuiet(c, u.s, Picks(sel.prefill, hits), mid);
    LoneWhole(c, eos, u.s, id, sel.prefill, hits);
    StartsFresh(c, u.s, Picks(sel.prefill, hits), mid, {id});
    WholeStarted(u.s, sel.prefill, mid, id);
    KeysMatch(c, mid);
    JobStays(u.s, mid, id);
    WholeDecodes(c, mid, id);
    DecodesWith(c, mid, id);
  }

  lemma LoneWhole(c: Cfg, eos: Option<Token>, s: Sys, id: Id, slices: seq<Slice>, hits: Id -> Option<(Key, nat)>)
    requires id in s.clients && s.clients[id].job == Hushed(c, eos) && forall sl :: sl in slices ==> sl == Slice(id, 0, 1)
    ensures var picks := Picks(slices, hits);
            forall i :: 0 <= i < |picks| ==> WholePrompt(s, {id}, picks[i].id, picks[i].start, picks[i].end)
  {
    forall i | 0 <= i < |slices|
      ensures slices[i] == Slice(id, 0, 1)
    {
      assert slices[i] in slices;
    }
  }

  lemma SameKeys(s: Sys, t: Sys)
    requires Quiet(s, t)
    ensures s.reqs.Keys == t.reqs.Keys
  {
  }

  lemma JobStays(s: Sys, t: Sys, id: Id)
    requires Quiet(s, t) && id in s.clients
    ensures id in t.clients && t.clients[id].job == s.clients[id].job
  {
  }

  lemma DecodesWith(c: Cfg, s: Sys, id: Id)
    requires Inv(c, s) && id in s.decoding
    ensures id in s.reqs && s.reqs[id].state == Decode && s.reqs[id].device == s.reqs[id].cached
  {
    DecodingState(c, s, id);
    assert IdOk(c, s, id);
  }

  /** The decode step ends it: a token more would exceed what it may have. */
  lemma LoneEnds(c: Cfg, eos: Option<Token>, u: Server, id: Id, outs: Id -> Outcome, mid: Sys, w: Server)
    requires Lone(c, u, id, eos) && Reachable(c, w.s)
    requires Inv(c, mid) && Fresh(mid) && Quiet(u.s, mid) && Onward(u.s, mid)
    requires id in mid.decoding && id in mid.reqs && mid.reqs[id].device >= 1 && mid.reqs[id].state == Decode
    requires w.s == SchedRuns.DecodeStep(c, mid, outs) && w.est == StillLive({id}, w.s.reqs)
    requires forall o :: !outs(o).fault && outs(o).delivered
    ensures Resting(c, w, eos) && Retired(w.s.reqs, w.s.arrivals) > Retired(u.s.reqs, u.s.arrivals)
  {
    hide Reachable, Inv, Retired, SchedRuns.DecodeStep, Fresh, Lone, Fades, Onward, Moved, Unforced, Quiet, JobsKept, Hushed;
    LoneParts(c, eos, u, id);
    ReachableInv(c, w.s);
    DecodeFades(c, mid, outs);
    FadesFresh(mid, w.s);
    DecodeMoves(c, mid, outs, id);
    DecodeUnforced(c, mid, outs);
    DecodeJobs(c, mid, outs);
    KeysMatch(c, u.s);
    KeysMatch(c, mid);
    SameKeys(u.s, mid);
    JobStays(u.s, mid, id);
    MovedEnds(c, eos, mid, w.s, id);
    FadesOnward(mid, w.s);
    OnwardTwice(u.s, mid, w.s);
    OthersDone(c, eos, u, mid, w, id);
    DeviceStays(mid, w.s, id);
    LoneRetires(c, eos, u, w, id);
  }

  lemma MovedEnds(c: Cfg, eos: Option<Token>, mid: Sys, t: Sys, id: Id)
    requires Inv(c, t) && Fresh(t) && Moved(mid, t, id) && Unforced(mid, t)
    requires mid.clients[id].job == Hushed(c, eos) && id in mid.reqs && mid.reqs[id].state == Decode
    ensures id in t.reqs && t.reqs[id].state == Done
  {
    hide Inv, Fresh, Hushed;
    if id in t.decoding {
      SilentClient(c, eos, t, id);
    }
  }

  lemma SilentClient(c: Cfg, eos: Option<Token>, s: Sys, id: Id)
    requires Inv(c, s) && Fresh(s) && id in s.clients && s.clients[id].job == Hushed(c, eos)
    ensures s.clients[id].emitted == []
  {
    HushedSilent(c, eos);
    assert ClientOk(c, s.clients[id]);
    hide Hushed;
  }

  /** A decode step leaves every client its job. */
  lemma DecodeJobs(c: Cfg, s: Sys, outs: Id -> Outcome)
    requires Inv(c, s)
    ensures JobsKept(s, SchedRuns.DecodeStep(c, s, outs))
  {
    if s.decoding != [] {
      RanPending(c, s);
      RanIs(c, s);
      hide Inv, Pending, ConfirmAll, Ran, Sorted;
      ConfirmAllMoves(c, Ran(c, s).0, Sorted(s.decoding), Ran(c, s).1, outs);
      MovedJobs(Ran(c, s).0, SchedRuns.DecodeStep(c, s, outs), Sorted(s.decoding));
    }
  }

  lemma MovedJobs(s: Sys, t: Sys, ids: seq<Id>)
    requires AllMoved(s, t, ids)
    ensures JobsKept(s, t)
  {
    forall o | o in s.clients
      ensures o in t.clients && t.clients[o].job == s.clients[o].job
    {
      if o !in ids {
        assert Spared(s, t, o);
      } else {
        assert Moved(s, t, o);
      }
    }
  }

  lemma OthersDone(c: Cfg, eos: Option<Token>, u: Server, mid: Sys, w: Server, id: Id)
    requires Lone(c, u, id, eos) && Quiet(u.s, mid) && Fades(mid, w.s) && JobsKept(mid, w.s) && Onward(u.s, w.s)
    requires u.s.clients.Keys == mid.clients.Keys
    requires Reachable(c, w.s) && Inv(c, w.s) && Fresh(w.s)
    requires id in w.s.reqs && w.s.reqs[id].state == Done && w.est == StillLive({id}, w.s.reqs)
    ensures Resting(c, w, eos)
  {
    hide Reachable, Inv, Fresh;
  }

  lemma DeviceStays(s: Sys, t: Sys, id: Id)
    requires Fades(s, t) && id in s.reqs
    ensures id in t.reqs && t.reqs[id].device >= s.reqs[id].device
  {
    assert Ages(s.reqs[id], t.reqs[id]);
  }

  lemma LoneRetires(c: Cfg, eos: Option<Token>, u: Server, w: Server, id: Id)
    requires Lone(c, u, id, eos) && Onward(u.s, w.s) && id in w.s.reqs && w.s.reqs[id].state == Done && w.s.reqs[id].device >= 1
    ensures Retired(w.s.reqs, w.s.arrivals) > Retired(u.s.reqs, u.s.arrivals)
  {
    hide Reachable, Inv, Fresh, Retired;
    ArrivedKnown(c, u.s);
    RetiredAdds(u.s.reqs, w.s.reqs, id, u.s.arrivals);
    RetiredMore(w.s.reqs, u.s.arrivals, w.s.arrivals);
  }

  // ---- the whole run ---------------------------------------------------------------------------------------------

  lemma {:induction false} FillFrom(c: Cfg, k: Limits, eos: Option<Token>, n: nat, v: Server) returns (m: nat, w: Server)
    requires 2 * c.W() <= c.kvPages && c.maxLen >= 2 && k.maxSeqs >= 1 && k.chunk >= 1
    requires Serves(c, k, n, v) && Resting(c, v, eos)
    ensures Serves(c, k, m, w) && Resting(c, w, eos) && Retired(w.s.reqs, w.s.arrivals) >= PoolTokens(c)
    decreases PoolTokens(c) - Retired(v.s.reqs, v.s.arrivals)
  {
    hide Serves, Resting, Lone, Retired, PoolTokens;
    if Retired(v.s.reqs, v.s.arrivals) >= PoolTokens(c) {
      m, w := n, v;
    } else {
      var id := Above(v.s.reqs.Keys);
      assert id !in v.s.reqs;
      var u := SubmitAlone(c, k, eos, n, v, id);
      var t := LoneServed(c, k, eos, n + 1, u, id);
      m, w := FillFrom(c, k, eos, n + 2, t);
    }
  }

  lemma StartRests(c: Cfg, k: Limits, eos: Option<Token>) returns (v: Server)
    ensures Serves(c, k, 0, v) && Resting(c, v, eos)
  {
    v := Server(Start(c), {});
    StartInitial(c);
    StartEmpty(c);
    hide Start, Inv;
    assert Reaches(c, v.s, [], v.s);
    ReachableInv(c, v.s);
  }

  lemma StartEmpty(c: Cfg)
    ensures Start(c).cache == None
  {
    hide OwnWindow, TakeRefs, BlankMem;
  }

  /** Every pool of two windows with a context of two positions runs dry: some run of the server,
      in which every job is accepted and completes normally and nothing is left live or owed, ends
      with the whole pool free and a budget of 0.  From there on, by `DryForever`, nobody receives
      another token. */
  lemma RunsDry(c: Cfg, k: Limits, eos: Option<Token>) returns (n: nat, w: Server)
    requires 2 * c.W() <= c.kvPages && c.maxLen >= 2 && k.maxSeqs >= 1 && k.chunk >= 1
    ensures Serves(c, k, n, w) && w.s.waiting == [] && w.s.decoding == []
    ensures forall o :: o in w.s.reqs ==> w.s.reqs[o].state == Done && o in w.s.clients && w.s.clients[o].done
    ensures forall o :: o in w.s.clients ==> JobOk(c, w.s.clients[o].job) && w.s.clients[o].job.eos == eos
    ensures FreeTokens(c, w.s) == PoolTokens(c) && Budget(c, w.s) == 0
    ensures Retired(w.s.reqs, w.s.arrivals) >= PoolTokens(c)
  {
    hide Serves, Reachable, Inv, Fresh, Retired, Usage;
    var v := StartRests(c, k, eos);
    n, w := FillFrom(c, k, eos, 0, v);
    HushedFits(c, eos);
    NothingLeft(c, w.s);
    UsageSplits(w.s.reqs, w.s.arrivals);
    forall o | o in w.s.reqs
      ensures o in w.s.clients && w.s.clients[o].done
    {
      EndedIsTold(c, w.s, o);
    }
  }

  lemma {:induction false} NothingArrives(c: Cfg, s0: Sys, es: seq<Event>, s: Sys)
    requires Initial(c, s0) && Reaches(c, s0, es, s) && c.maxLen == 1
    ensures s.reqs == map[] && s.arrivals == []
    decreases |es|
  {
    if es != [] {
      var prior, last := es[..|es| - 1], es[|es| - 1];
      var p :| Reaches(c, s0, prior, p) && Steps(c, p, last, s);
      NothingArrives(c, s0, prior, p);
      StillNothing(c, p, last);
    }
  }

  lemma StillNothing(c: Cfg, p: Sys, e: Event)
    requires Inv(c, p) && Enabled(c, p, e) && c.maxLen == 1 && p.reqs == map[] && p.arrivals == []
    ensures Next(c, p, e).reqs == map[] && Next(c, p, e).arrivals == []
  {
    assert Queues(p);
    hide Inv, Shape, Reqs, SingleOk, Owned, Ledger, Content, Isolated;
    FirstIn(p.decoding);
    match e
    case Submitted(id, job) =>
    case AbortedBy(id) =>
    case PreemptedBy(id) =>
    case Prefilled(a) =>
    case Decoded(outs) =>
  }

  /** The context of two positions is needed: with one, no job is ever accepted, in any run, and
      the budget stays the whole pool. */
  lemma NothingFits(c: Cfg, s: Sys)
    requires Reachable(c, s) && c.maxLen == 1
    ensures s.reqs == map[] && Budget(c, s) == PoolTokens(c)
  {
    var s0, es :| Initial(c, s0) && Reaches(c, s0, es, s);
    NothingArrives(c, s0, es, s);
  }
}
