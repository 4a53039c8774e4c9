/** The last tokens of the step budget.  A request that can end only at its token limit needs, for
    its last step, a budget that still has room beside all it has on the device.  Once ended
    requests leave less than that, it never ends by itself in any continuation of any run: it is
    preempted before its last step and starts over, or never starts. */
module Unfinished {
  import opened Transformer
  import opened PagedKv
  import opened Requests
  import opened SchedState
  import opened ExecSteps
  import opened SchedSteps
  import opened SchedRelease
  import opened SchedPrefill
  import opened SchedDecode
  import opened SchedConfirm
  import opened SchedRuns
  import opened SchedTheorems
  import opened Selection
  import opened StepBudget
  import opened Admission
  import opened Seats
  import opened Liveness
  import opened Starvation
  import SchedLoop

  // ---- one request of the decode step ------------------------------------------------------------------

  /** Only its token limit can end the request. */
  predicate Plain(job: Job) {
    NonEmpty(job.stop) == [] && job.eos == None
  }

  /** The request is there, has not ended by itself, and if it decodes it has a token to go. */
  ghost predicate Going(s: Sys, id: Id) {
    && id in s.clients && id in s.reqs && s.reqs[id].state != Done && Plain(s.clients[id].job)
    && (s.reqs[id].state == Decode ==> s.reqs[id].cached < |s.clients[id].job.prompt| + s.clients[id].job.maxTokens)
  }

  /** The request is there and has not ended by itself. */
  ghost predicate Unended(s: Sys, id: Id) {
    id in s.clients && id in s.reqs && s.reqs[id].state != Done && Plain(s.clients[id].job)
  }

  lemma PlainConfirms(r: Req, token: Token)
    requires r.state == Decode && r.stop.patterns == [] && r.eos == None && r.cached < r.promptLen + r.maxOutput
    ensures r.DecodeStep(token).1.DecodeConfirmed? && r.DecodeStep(token).0.state == Decode
  {
  }

  lemma ConfirmUnended(c: Cfg, s: Sys, id: Id, row: Vec, out: Outcome)
    requires Inv(c, s) && id in s.decoding && Going(s, id)
    ensures id in s.reqs && id in s.meta && id in s.segs && Unended(ConfirmOne(c, s, id, row, out), id)
  {
    DecodingState(c, s, id);
    assert IdOk(c, s, id);
    FaultIs(c, s, id, row, out);
    ConfirmMoves(c, s, id, row, out);
    hide ConfirmOne, Abort, Shape, SingleOk, Owned, Ledger, Content, Isolated, Reqs, Append, Req.DecodeStep;
    if out.fault {
      AbortEnds(c, s, id);
    } else {
      var token := TokenOf(c, s, id, row);
      PlainConfirms(s.reqs[id], token);
      GrowsIs(c, s, id, row, out);
      AppendGrown(s, id, row, token);
      var s2 := Append(s, id, row, token).0;
      if !out.delivered {
        AbortEnds(c, s2, id);
      }
    }
  }

  lemma SparedGoing(s: Sys, t: Sys, id: Id)
    requires Spared(s, t, id)
    ensures Going(s, id) && (id in t.decoding || s.reqs[id].state != Decode) ==> Going(t, id)
    ensures Unended(s, id) ==> Unended(t, id)
  {
  }

  lemma GoingUnended(s: Sys, id: Id)
    requires Going(s, id)
    ensures Unended(s, id)
  {
  }

  lemma {:induction false} ConfirmAllUnended(c: Cfg, s: Sys, ids: seq<Id>, rows: seq<Vec>, outs: Id -> Outcome, id: Id)
    requires Inv(c, s) && Pending(c, s, ids, rows) && Going(s, id)
    ensures Unended(ConfirmAll(c, s, ids, rows, outs), id)
    decreases |ids|
  {
    hide Going, Unended, Inv, Pending, ConfirmOne, Spared, Moved;
    GoingUnended(s, id);
    if id !in ids {
      ConfirmAllMoves(c, s, ids, rows, outs);
      GoingClient(s, id);
      SparedGoing(s, ConfirmAll(c, s, ids, rows, outs), id);
    } else {
      SchedLoop.NextPending(c, s, ids, rows, outs);
      PendingClients(c, s, ids, rows);
      PendingDecodes(c, s, ids, rows);
      var s1 := ConfirmOne(c, s, ids[0], rows[0], outs(ids[0]));
      ConfirmMoves(c, s, ids[0], rows[0], outs(ids[0]));
      if id == ids[0] {
        ConfirmUnended(c, s, id, rows[0], outs(id));
        ConfirmAllMoves(c, s1, ids[1..], rows[1..], outs);
        UnendedClient(s1, id);
        assert id !in ids[1..];
        SparedGoing(s1, ConfirmAll(c, s1, ids[1..], rows[1..], outs), id);
      } else {
        GoingClient(s, id);
        assert id in ids[1..];
        PendingDecodes(c, s1, ids[1..], rows[1..]);
        SparedGoing(s, s1, id);
        ConfirmAllUnended(c, s1, ids[1..], rows[1..], outs, id);
      }
    }
  }

  lemma GoingClient(s: Sys, id: Id)
    requires Going(s, id)
    ensures id in s.clients && id in s.reqs
  {
  }

  lemma UnendedClient(s: Sys, id: Id)
    requires Unended(s, id)
    ensures id in s.clients && id in s.reqs
  {
  }

  lemma PendingDecodes(c: Cfg, s: Sys, ids: seq<Id>, rows: seq<Vec>)
    requires Pending(c, s, ids, rows)
    ensures |rows| == |ids| && forall id :: id in ids ==> id in s.decoding
  {
  }

  lemma DecodeUnended(c: Cfg, s: Sys, outs: Id -> Outcome, id: Id)
    requires Inv(c, s) && Going(s, id)
    ensures Unended(SchedRuns.DecodeStep(c, s, outs), id)
  {
    if s.decoding != [] {
      RanPending(c, s);
      RanIs(c, s);
      hide Inv, Pending, ConfirmAll, Ran, Sorted;
      ConfirmAllUnended(c, Ran(c, s).0, Sorted(s.decoding), Ran(c, s).1, outs, id);
    }
  }

  // ---- victims and slices --------------------------------------------------------------------------------

  /** If the request decodes in `t`, it did in `s` and was no victim, or its whole prompt has just
      been prefilled. */
  ghost predicate Held(s: Sys, es: seq<Event>, t: Sys, id: Id) {
    && Unended(s, id) && Unended(t, id) && t.clients[id].job == s.clients[id].job
    && (t.reqs[id].state == Decode ==>
          || (t.reqs[id] == s.reqs[id] && forall i :: 0 <= i < |es| ==> es[i] != PreemptedBy(id))
          || t.reqs[id].cached == |t.clients[id].job.prompt|)
  }

  lemma PreemptHeld(c: Cfg, s: Sys, victim: Id, id: Id)
    requires victim in s.reqs && s.reqs[victim].state == Decode && Unended(s, id)
    ensures var t := PreemptVictim(c, s, victim);
            && Unended(t, id) && t.clients[id].job == s.clients[id].job
            && (if id == victim then t.reqs[id].state != Decode else t.reqs[id] == s.reqs[id])
  {
    hide DropRefs, OwnWindow;
  }

  lemma AssignHeld(c: Cfg, s: Sys, a: Assignment, id: Id)
    requires Inv(c, s) && AssignmentOk(c, s, a) && Unended(s, id)
    ensures var t := Assign(c, s, a);
            && Unended(t, id) && t.clients[id].job == s.clients[id].job
            && (t.reqs[id] == s.reqs[id] || (t.reqs[id].state == Decode ==> t.reqs[id].cached == |t.clients[id].job.prompt|))
  {
    hide Inv, Assign, AssignmentOk, Joins, Unended, Proceeds;
    AssignJoins(c, s, a);
    AssignKeeps(c, s, a);
    SchedLoop.InvBooks(c, s);
    JoinsKeys(c, s, a);
    if Proceeds(c, s, a) {
      PromptIs(c, s, a.id);
      JoinsHeld(c, s, a, Assign(c, s, a), id);
    }
  }

  /** A request that decodes right after its slice has exactly its prompt. */
  lemma JoinsHeld(c: Cfg, s: Sys, a: Assignment, t: Sys, id: Id)
    requires Inv(c, t) && a.id in s.meta && a.id in s.clients && s.meta[a.id].job == s.clients[a.id].job
    requires Joins(s, a, EndOf(s, a), t) && Unended(s, id)
    ensures Unended(t, id) && t.clients[id].job == s.clients[id].job
    ensures t.reqs[id] == s.reqs[id] || (t.reqs[id].state == Decode ==> t.reqs[id].cached == |t.clients[id].job.prompt|)
  {
    KeysMatch(c, t);
    if a.id == id {
      DecodesAtLeast(c, t, id);
    }
    hide Inv;
  }

  lemma DecodesAtLeast(c: Cfg, s: Sys, id: Id)
    requires Inv(c, s) && id in s.reqs
    ensures id in s.clients && (s.reqs[id].state == Decode ==> s.reqs[id].cached >= |s.clients[id].job.prompt|)
    ensures s.reqs[id].state == Decode ==> s.clients[id].job.maxTokens > 0 && id in s.decoding
    ensures s.reqs[id].state == Decode ==> s.reqs[id].device == s.reqs[id].cached
  {
    assert IdOk(c, s, id);
  }

  lemma {:induction false} RunHeld(c: Cfg, s: Sys, es: seq<Event>, t: Sys, id: Id)
    requires Reaches(c, s, es, t) && Unended(s, id) && forall i :: 0 <= i < |es| ==> es[i].PreemptedBy? || es[i].Prefilled?
    ensures Held(s, es, t, id)
    decreases |es|
  {
    hide Unended, Held, Inv, Assign, PreemptVictim, AssignmentOk;
    if es == [] {
      HeldNow(s, id);
    } else {
      var prior, last := es[..|es| - 1], es[|es| - 1];
      var p :| Reaches(c, s, prior, p) && Steps(c, p, last, t);
      RunHeld(c, s, prior, p, id);
      HeldParts(s, prior, p, id);
      if last.PreemptedBy? {
        PreemptKeeps(c, p, last.id);
        PreemptHeld(c, p, last.id, id);
      } else {
        AssignHeld(c, p, last.a, id);
      }
      assert es == prior + [last];
      HeldMore(s, prior, p, last, t, id);
    }
  }

  lemma HeldNow(s: Sys, id: Id)
    requires Unended(s, id)
    ensures Held(s, [], s, id)
  {
  }

  lemma HeldParts(s: Sys, es: seq<Event>, t: Sys, id: Id)
    requires Held(s, es, t, id)
    ensures Unended(s, id) && Unended(t, id)
  {
  }

  lemma HeldMore(s: Sys, prior: seq<Event>, p: Sys, last: Event, t: Sys, id: Id)
    requires Held(s, prior, p, id) && Unended(t, id) && t.clients[id].job == p.clients[id].job
    requires if last == PreemptedBy(id) then t.reqs[id].state != Decode
             else t.reqs[id] == p.reqs[id] || (t.reqs[id].state == Decode ==> t.reqs[id].cached == |t.clients[id].job.prompt|)
    ensures Held(s, prior + [last], t, id)
  {
  }

  // ---- the step --------------------------------------------------------------------------------------------

  lemma {:induction false} UsageHas(reqs: map<Id, Req>, ids: seq<Id>, id: Id)
    requires id in ids && id in reqs && reqs[id].Live()
    ensures Usage(reqs, ids) >= Retired(reqs, ids) + reqs[id].device
  {
    var rest := ids[..|ids| - 1];
    UsageSplits(reqs, rest);
    if id in rest {
      UsageHas(reqs, rest, id);
    }
  }

  /** Ended requests leave no room beside the tokens the job needs for its last step. */
  predicate Crowded(c: Cfg, s: Sys, job: Job) {
    Retired(s.reqs, s.arrivals) + |job.prompt| + job.maxTokens >= PoolTokens(c)
  }

  /** At the start of a step such a job is not before its last step, unless it is a victim. */
  lemma LastIsVictim(c: Cfg, s: Sys, ids: seq<Id>, chunk: nat, id: Id)
    requires Reachable(c, s) && Shown(s, ids) && Unended(s, id) && Crowded(c, s, s.clients[id].job)
    requires s.reqs[id].state == Decode && s.reqs[id].cached >= |s.clients[id].job.prompt| + s.clients[id].job.maxTokens
    ensures id in Selected(c, s, ids, chunk).preempted
  {
    hide Reachable, Inv, Select, Usage, Retired, PoolTokens, Unended;
    ReachableInv(c, s);
    UnendedClient(s, id);
    DecodesAtLeast(c, s, id);
    ArrivedKnown(c, s);
    UsageHas(s.reqs, s.arrivals, id);
    NothingRuns(WaitingViews(s, ids, chunk), DecodingViews(s), Budget(c, s), 0);
    var v := Selected(c, s, ids, chunk).preempted;
    assert id in multiset(s.decoding);
    assert id in multiset(v);
  }

  lemma PreparedGoing(c: Cfg, k: Limits, v: Server, ids: seq<Id>, hits: Id -> Option<(Key, nat)>, mid: Sys, id: Id)
    requires Reachable(c, v.s) && Shown(v.s, ids) && Unended(v.s, id) && Crowded(c, v.s, v.s.clients[id].job) && Inv(c, mid)
    requires var sel := Selected(c, v.s, ids, k.chunk);
             SchedLoop.Progress(c, v.s, sel.preempted, Picks(sel.prefill, hits), mid)
    ensures Going(mid, id) && mid.clients[id].job == v.s.clients[id].job
  {
    hide Reachable, Inv, Reaches, SchedLoop.Allots, Select, Unended, Crowded;
    var sel := Selected(c, v.s, ids, k.chunk);
    var es: seq<Event> :| SchedLoop.Carries(es, sel.preempted, Picks(sel.prefill, hits)) && SchedLoop.Allots(c, v.s, es, mid);
    SchedLoop.AllotsReaches(c, v.s, es, mid);
    CarriesKinds(es, sel.preempted, Picks(sel.prefill, hits));
    RunHeld(c, v.s, es, mid, id);
    HeldParts(v.s, es, mid, id);
    UnendedClient(v.s, id);
    UnendedClient(mid, id);
    DecodesAtLeast(c, mid, id);
    var job := v.s.clients[id].job;
    if v.s.reqs[id].state == Decode && v.s.reqs[id].cached >= |job.prompt| + job.maxTokens {
      LastIsVictim(c, v.s, ids, k.chunk, id);
      var i :| 0 <= i < |sel.preempted| && sel.preempted[i] == id;
      assert es[i] == PreemptedBy(id);
    }
    HeldGoing(v.s, es, mid, id);
  }

  lemma CarriesKinds(es: seq<Event>, victims: seq<Id>, picks: seq<Assignment>)
    requires SchedLoop.Carries(es, victims, picks)
    ensures forall i :: 0 <= i < |es| ==> es[i].PreemptedBy? || es[i].Prefilled?
    ensures forall i :: 0 <= i < |victims| ==> es[i] == PreemptedBy(victims[i])
  {
    forall i | |victims| <= i < |es|
      ensures es[i].Prefilled?
    {
      assert es[|victims|..][i - |victims|] == es[i];
    }
  }

  lemma HeldGoing(s: Sys, es: seq<Event>, t: Sys, id: Id)
    requires Held(s, es, t, id) && (t.reqs[id].state == Decode ==> t.clients[id].job.maxTokens > 0)
    requires s.reqs[id].state == Decode && s.reqs[id].cached >= |s.clients[id].job.prompt| + s.clients[id].job.maxTokens ==>
               exists i :: 0 <= i < |es| && es[i] == PreemptedBy(id)
    ensures Going(t, id) && t.clients[id].job == s.clients[id].job
  {
  }

  lemma ScheduledUnended(c: Cfg, k: Limits, v: Server, w: Server, id: Id)
    requires Reachable(c, v.s) && Scheduled(c, k, v, w) && Unended(v.s, id) && Crowded(c, v.s, v.s.clients[id].job)
    ensures Unended(w.s, id) && w.s.clients[id].job == v.s.clients[id].job
  {
    hide Inv, Reachable, Admit, Selected, HitsOk, SchedLoop.Progress, AdmitCap, Unended, Going, Crowded, Shown,
         SchedRuns.DecodeStep;
    var granted, hits, outs, mid :| Iterated(c, k, v, granted, hits, outs, mid, w);
    var ids := Admit(v.s.waiting, v.est, granted, AdmitCap(c, k.maxSeqs)).0;
    PreparedGoing(c, k, v, ids, hits, mid, id);
    DecodeUnended(c, mid, outs, id);
    DecodeJobs(c, mid, outs);
    GoingClient(mid, id);
  }

  lemma CommandUnended(c: Cfg, v: Server, w: Server, id: Id)
    requires Inv(c, v.s) && Commanded(c, v, w) && Unended(v.s, id)
    ensures Unended(w.s, id) && w.s.clients[id].job == v.s.clients[id].job
  {
    hide Inv, Submit, Abort, StillLive, JobOk, Spared;
    KeysMatch(c, v.s);
    if o: Id, job: Job :| o !in v.s.reqs && (job.prompt != [] ==> JobOk(c, job))
                          && w == Server(Submit(c, v.s, o, job), v.est) {
      SubmitSpares(c, v.s, o, job, id);
      SparedJob(v.s, w.s, id);
    } else {
      var o: Id :| w == Server(Abort(c, v.s, o), StillLive(v.est, Abort(c, v.s, o).reqs));
      if o == id {
        AbortEnds(c, v.s, id);
        AbortUnended(c, v.s, id);
      } else {
        AbortSpares(c, v.s, o, id);
        SparedJob(v.s, w.s, id);
      }
    }
  }

  lemma SparedJob(s: Sys, t: Sys, id: Id)
    requires Spared(s, t, id) && Unended(s, id)
    ensures Unended(t, id) && t.clients[id].job == s.clients[id].job
  {
  }

  lemma AbortUnended(c: Cfg, s: Sys, id: Id)
    requires s.clients.Keys == s.reqs.Keys && Unended(s, id)
    ensures Abort(c, s, id).reqs[id].state != Done
  {
    if s.reqs[id].Live() {
      AbortFields(c, s, id);
    }
  }

  lemma CrowdedStays(c: Cfg, s: Sys, t: Sys, job: Job)
    requires Onward(s, t) && Crowded(c, s, job)
    ensures Crowded(c, t, job)
  {
    hide Onward;
    OnwardRetires(s, t);
  }

  /** A job that only its token limit can end, and that is not done when ended requests leave no
      more budget than its prompt and limit, never completes: not in any continuation of any run of
      the server, whatever is submitted, aborted or freed meanwhile. */
  lemma {:induction false} NeverCompletes(c: Cfg, k: Limits, n0: nat, v: Server, n: nat, m: nat, w: Server, id: Id)
    requires Serves(c, k, n0, v) && Continues(c, k, v, n, m, w)
    requires Unended(v.s, id) && Crowded(c, v.s, v.s.clients[id].job)
    ensures Unended(w.s, id) && w.s.clients[id].job == v.s.clients[id].job
  {
    hide Serves, Commanded, Scheduled, Unended, Crowded, Reachable, Inv;
    UnendedClient(v.s, id);
    if n > 0 {
      if u :| Continues(c, k, v, n - 1, m, u) && Commanded(c, u, w) {
        NeverCompletes(c, k, n0, v, n - 1, m, u, id);
        CrowdedBefore(c, k, n0, v, n - 1, m, u, v.s.clients[id].job);
        CommandUnended(c, u, w, id);
      } else {
        var u :| Continues(c, k, v, n - 1, m - 1, u) && Scheduled(c, k, u, w);
        NeverCompletes(c, k, n0, v, n - 1, m - 1, u, id);
        CrowdedBefore(c, k, n0, v, n - 1, m - 1, u, v.s.clients[id].job);
        ScheduledUnended(c, k, u, w, id);
      }
    }
  }

  lemma CrowdedBefore(c: Cfg, k: Limits, n0: nat, v: Server, n: nat, m: nat, u: Server, job: Job)
    requires Serves(c, k, n0, v) && Continues(c, k, v, n, m, u) && Crowded(c, v.s, job)
    ensures Reachable(c, u.s) && Inv(c, u.s) && Crowded(c, u.s, job)
  {
    hide Serves, Continues, Reachable, Inv, Crowded, Onward;
    ContinuesServes(c, k, n0, v, n, m, u);
    ServesReach(c, k, n0 + n, u);
    ReachableInv(c, u.s);
    ContinuesOnward(c, k, n0, v, n, m, u);
    CrowdedStays(c, v.s, u.s, job);
  }

  /** With two tokens of the budget left that is every live job that only its limit can end. */
  lemma LastTwo(c: Cfg, k: Limits, n0: nat, v: Server, n: nat, m: nat, w: Server, id: Id)
    requires Serves(c, k, n0, v) && Continues(c, k, v, n, m, w) && Retired(v.s.reqs, v.s.arrivals) + 2 >= PoolTokens(c)
    requires id in v.s.reqs && v.s.reqs[id].Live() && id in v.s.clients && Plain(v.s.clients[id].job)
    ensures id in w.s.reqs && w.s.reqs[id].state != Done
  {
    hide Serves, Continues, Reachable, Inv, Retired, PoolTokens;
    ServesReach(c, k, n0, v);
    ReachableInv(c, v.s);
    LiveAccepted(c, v.s, id);
    NeverCompletes(c, k, n0, v, n, m, w, id);
  }

  lemma LiveAccepted(c: Cfg, s: Sys, id: Id)
    requires Inv(c, s) && id in s.reqs && s.reqs[id].Live()
    ensures id in s.clients && JobOk(c, s.clients[id].job)
  {
    assert IdOk(c, s, id);
  }
}
