/** A slice of the selection is what the step may prefill: no request is dispatched past the end
    it was granted, and a whole step stays inside its token budget. */
module Grants {
  import opened Transformer
  import opened PagedKv
  import opened Requests
  import opened SchedState
  import opened ExecSteps
  import opened SchedSteps
  import opened SchedRelease
  import opened SchedPrefill
  import opened SchedRuns
  import opened Selection
  import opened StepBudget
  import opened Admission
  import SchedLoop

  /** A slice that is not put off dispatches the tokens up to the last page boundary of 32 inside
      it, or to the end of the prompt if it reaches that; one that is put off dispatches none. */
  lemma AssignGrant(c: Cfg, s: Sys, a: Assignment)
    requires Inv(c, s) && AssignmentOk(c, s, a)
    ensures var n := |s.meta[a.id].job.prompt|;
            var end := if a.end < n then a.end / 32 * 32 else n;
            var goes := end > a.start && (s.reqs[a.id].state == Chunked || a.alloc.Some?);
            && Assign(c, s, a).dispatched == s.dispatched + (if goes then end - a.start else 0)
            && Assign(c, s, a).dispatched - s.dispatched <= a.end - a.start
            && (goes ==> a.id in Assign(c, s, a).reqs && Assign(c, s, a).reqs[a.id].cached == end)
  {
    AssignJoins(c, s, a);
    if Proceeds(c, s, a) {
      assert Inv(c, s) && IdOk(c, s, a.id);
      var s1 := EntryOf(c, s, a);
      hide Inv, Dispatch, Assign, IdOk, OwnWindow, TakeRefs;
      DispatchFields(c, s1, a, EndOf(s, a));
    }
  }

  /** What the slices among the events were granted. */
  function Granted(es: seq<Event>): int {
    if es == [] then 0
    else
      var last := es[|es| - 1];
      Granted(es[..|es| - 1]) + (if last.Prefilled? then last.a.end - last.a.start else 0)
  }

  lemma {:induction false} AllotsGrant(c: Cfg, s0: Sys, es: seq<Event>, t: Sys)
    requires SchedLoop.Allots(c, s0, es, t)
    requires forall i :: 0 <= i < |es| ==> es[i].PreemptedBy? || es[i].Prefilled?
    ensures t.dispatched - s0.dispatched <= Granted(es)
    decreases |es|
  {
    hide Inv, Next, SchedLoop.Answered;
    if es != [] {
      var prior, last := es[..|es| - 1], es[|es| - 1];
      var p :| SchedLoop.Allots(c, s0, prior, p) && SchedLoop.AllotsOne(c, p, last, t);
      AllotsGrant(c, s0, prior, p);
      EventGrant(c, p, last);
    }
  }

  lemma EventGrant(c: Cfg, s: Sys, e: Event)
    requires Inv(c, s) && Enabled(c, s, e) && (e.PreemptedBy? || e.Prefilled?)
    ensures Next(c, s, e).dispatched - s.dispatched <= if e.Prefilled? then e.a.end - e.a.start else 0
  {
    hide Inv, Assign, AssignmentOk, DropRefs, OwnWindow;
    match e
    case PreemptedBy(id) =>
      PreemptKeeps(c, s, id);
    case Prefilled(a) =>
      AssignGrant(c, s, a);
  }

  lemma {:induction false} VictimsGrant(es: seq<Event>)
    requires forall i :: 0 <= i < |es| ==> es[i].PreemptedBy?
    ensures Granted(es) == 0
  {
    if es != [] {
      VictimsGrant(es[..|es| - 1]);
    }
  }

  lemma {:induction false} TokensSplit(ss: seq<Slice>, k: nat)
    requires k < |ss|
    ensures Tokens(ss[..k + 1]) == Tokens(ss[..k]) + (ss[k].end - ss[k].start)
  {
    if k > 0 {
      TokensSplit(ss[1..], k - 1);
      assert ss[..k + 1][1..] == ss[1..][..k] && ss[..k][1..] == ss[1..][..k - 1];
    }
  }

  /** The events carry the selection, so they grant what its slices are long. */
  lemma {:induction false} CarriedGrant(es: seq<Event>, victims: seq<Id>, ss: seq<Slice>, hits: Id -> Option<(Key, nat)>, k: nat)
    requires SchedLoop.Carries(es, victims, Picks(ss, hits)) && k <= |ss|
    ensures Granted(es[..|victims| + k]) == Tokens(ss[..k])
    decreases k
  {
    if k == 0 {
      VictimsGrant(es[..|victims|]);
    } else {
      CarriedGrant(es, victims, ss, hits, k - 1);
      var n, rest := |victims|, es[|victims|..];
      assert rest[k - 1].a.(alloc := None) == Picks(ss, hits)[k - 1];
      assert es[n + k - 1] == rest[k - 1];
      assert es[..n + k][..n + k - 1] == es[..n + k - 1];
      TokensSplit(ss, k - 1);
    }
  }

  /** No step prefills more tokens than its budget leaves after one token for every decoding
      request that keeps its place. */
  lemma StepWithinBudget(c: Cfg, k: Limits, v: Server, granted: set<Id>, hits: Id -> Option<(Key, nat)>,
                         outs: Id -> Outcome, mid: Sys, w: Server)
    requires Iterated(c, k, v, granted, hits, outs, mid, w)
    ensures var sel := Selected(c, v.s, Admit(v.s.waiting, v.est, granted, AdmitCap(c, k.maxSeqs)).0, k.chunk);
            mid.dispatched - v.s.dispatched + |sel.decode| <= Budget(c, v.s)
  {
    hide Inv, AdmitCap, Admit, Select, SchedLoop.Progress, SchedRuns.DecodeStep, HitsOk, Usage, PoolTokens;
    var ids := Admit(v.s.waiting, v.est, granted, AdmitCap(c, k.maxSeqs)).0;
    SelectedWithin(c, v.s, ids, k.chunk);
    ProgressGrant(c, v.s, Selected(c, v.s, ids, k.chunk).preempted, Selected(c, v.s, ids, k.chunk).prefill, hits, mid);
  }

  lemma SelectedWithin(c: Cfg, s: Sys, ids: seq<Id>, chunk: nat)
    requires Shown(s, ids)
    ensures var sel := Selected(c, s, ids, chunk); |sel.decode| + Tokens(sel.prefill) <= Budget(c, s)
  {
    hide Select, Viewed, Wants, Tokens, Usage, IndexIn;
    BudgetKept(WaitingViews(s, ids, chunk), DecodingViews(s), Budget(c, s), 0);
  }

  lemma ProgressGrant(c: Cfg, s: Sys, victims: seq<Id>, ss: seq<Slice>, hits: Id -> Option<(Key, nat)>, t: Sys)
    requires SchedLoop.Progress(c, s, victims, Picks(ss, hits), t)
    ensures t.dispatched - s.dispatched <= Tokens(ss)
  {
    hide SchedLoop.Allots, SchedLoop.Carries, Tokens, Picks;
    var es :| SchedLoop.Carries(es, victims, Picks(ss, hits)) && SchedLoop.Allots(c, s, es, t);
    CarriedEvents(es, victims, ss, hits);
    AllotsGrant(c, s, es, t);
  }

  lemma CarriedEvents(es: seq<Event>, victims: seq<Id>, ss: seq<Slice>, hits: Id -> Option<(Key, nat)>)
    requires SchedLoop.Carries(es, victims, Picks(ss, hits))
    ensures forall i :: 0 <= i < |es| ==> es[i].PreemptedBy? || es[i].Prefilled?
    ensures Granted(es) == Tokens(ss)
  {
    var n, rest := |victims|, es[|victims|..];
    forall i | 0 <= i < |es|
      ensures es[i].PreemptedBy? || es[i].Prefilled?
    {
      assert i >= n ==> es[i] == rest[i - n];
    }
    CarriedGrant(es, victims, ss, hits, |ss|);
    assert es[..n + |ss|] == es && ss[..|ss|] == ss;
  }
}
