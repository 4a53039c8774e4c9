/** Progress of the served loop: every decode step gives every decoding request a token or ends
    it, and with room and the prefix cache off every request the gate lets in decodes in that
    same step and ends within its token limit in steps.  The server is never stuck. */
module Liveness {
  import opened Transformer
  import opened PagedKv
  import opened Requests
  import opened SchedState
  import opened ExecSteps
  import opened SchedSteps
  import opened SchedRelease
  import opened SchedPrefill
  import opened SchedDecode
  import opened SchedConfirm
  import opened SchedRuns
  import opened SchedTheorems
  import opened Selection
  import opened StepBudget
  import opened Admission
  import opened Seats
  import SchedLoop
  import SegmentPool

  // ---- one token for everybody -----------------------------------------------------------------------------

  /** A request that ended by itself has told its client. */
  ghost predicate Told(s: Sys, id: Id) {
    id in s.reqs && id in s.clients && (s.reqs[id].state == Done ==> s.clients[id].done)
  }

  /** The request has ended, or decodes and its client has received one token more. */
  ghost predicate Moved(s: Sys, r: Sys, id: Id) {
    && id in s.clients && Told(r, id) && r.clients[id].job == s.clients[id].job
    && (!r.reqs[id].Live() || (id in r.decoding && |r.clients[id].emitted| == |s.clients[id].emitted| + 1))
  }

  /** Nothing has happened to the request. */
  ghost predicate Spared(s: Sys, r: Sys, id: Id) {
    && id in s.clients && id in r.clients && id in s.reqs && id in r.reqs
    && r.reqs[id] == s.reqs[id] && r.clients[id].emitted == s.clients[id].emitted && r.clients[id].done == s.clients[id].done
    && r.clients[id].job == s.clients[id].job && (id in s.decoding ==> id in r.decoding)
  }

  lemma AbortSpares(c: Cfg, s: Sys, id: Id, o: Id)
    requires s.clients.Keys == s.reqs.Keys && o in s.clients && o != id
    ensures Spared(s, Abort(c, s, id), o)
  {
    if id in s.reqs && s.reqs[id].Live() {
      AbortFields(c, s, id);
    }
  }

  lemma AbortEnds(c: Cfg, s: Sys, id: Id)
    requires s.clients.Keys == s.reqs.Keys && id in s.reqs
    ensures id in Abort(c, s, id).clients && id in Abort(c, s, id).reqs && !Abort(c, s, id).reqs[id].Live()
    ensures s.reqs[id].Live() ==> Abort(c, s, id).reqs[id].state == Aborted
    ensures Abort(c, s, id).clients[id].job == s.clients[id].job
  {
    if s.reqs[id].Live() {
      AbortFields(c, s, id);
    }
  }

  lemma TerminalMoves(c: Cfg, s: Sys, id: Id, row: Vec, out: Outcome)
    requires Shape(c, s) && Owned(c, s) && s.clients.Keys == s.reqs.Keys && id in s.reqs && id in s.meta && id in s.segs
    requires JobOk(c, s.meta[id].job) && s.reqs[id].state == Decode && !out.fault
    requires !s.reqs[id].DecodeStep(TokenOf(c, s, id, row)).1.DecodeConfirmed?
    ensures Moved(s, ConfirmOne(c, s, id, row, out), id)
    ensures forall o :: o in s.clients && o != id ==> Spared(s, ConfirmOne(c, s, id, row, out), o)
  {
    hide ConfirmOne, RefillRelease, Shape, Owned, TakeAndFlushStore;
    TerminalGone(c, s, id, row, out);
  }

  lemma AppendMoves(s: Sys, id: Id, row: Vec, token: Token)
    requires s.clients.Keys == s.reqs.Keys && id in s.reqs && id in s.meta && id in s.decoding && s.reqs[id].state == Decode
    requires s.reqs[id].DecodeStep(token).1.DecodeConfirmed?
    ensures Moved(s, Append(s, id, row, token).1, id)
    ensures forall o :: o in s.clients && o != id ==>
              Spared(s, Append(s, id, row, token).0, o) && Spared(s, Append(s, id, row, token).1, o)
  {
  }

  lemma SparedTwice(s: Sys, t: Sys, u: Sys, o: Id)
    requires Spared(s, t, o) && Spared(t, u, o)
    ensures Spared(s, u, o)
  {
  }

  /** Confirming one request of the batch moves it and nobody else. */
  lemma ConfirmMoves(c: Cfg, s: Sys, id: Id, row: Vec, out: Outcome)
    requires Inv(c, s) && id in s.decoding
    ensures id in s.reqs && id in s.meta && id in s.segs && Moved(s, ConfirmOne(c, s, id, row, out), id)
    ensures forall o :: o in s.clients && o != id ==> Spared(s, ConfirmOne(c, s, id, row, out), o)
  {
    DecodingState(c, s, id);
    assert IdOk(c, s, id) && JobOk(c, s.meta[id].job);
    FaultIs(c, s, id, row, out);
    hide ConfirmOne, Abort, Shape, SingleOk, Owned, Ledger, Content, Isolated, Reqs, Append, Spared;
    if out.fault {
      AbortMoves(c, s, id);
    } else if s.reqs[id].DecodeStep(TokenOf(c, s, id, row)).1.DecodeConfirmed? {
      var token := TokenOf(c, s, id, row);
      GrowsIs(c, s, id, row, out);
      AppendGrown(s, id, row, token);
      AppendMoves(s, id, row, token);
      var s2 := Append(s, id, row, token).0;
      if !out.delivered {
        AbortMoves(c, s2, id);
        forall o | o in s.clients && o != id
          ensures Spared(s, Abort(c, s2, id), o)
        {
          SparedTwice(s, s2, Abort(c, s2, id), o);
        }
      }
    } else {
      TerminalMoves(c, s, id, row, out);
    }
  }

  lemma AbortMoves(c: Cfg, s: Sys, id: Id)
    requires s.clients.Keys == s.reqs.Keys && id in s.reqs && s.reqs[id].Live()
    ensures Moved(s, Abort(c, s, id), id)
    ensures forall o :: o in s.clients && o != id ==> Spared(s, Abort(c, s, id), o)
  {
    hide Abort;
    AbortEnds(c, s, id);
    forall o | o in s.clients && o != id
      ensures Spared(s, Abort(c, s, id), o)
    {
      AbortSpares(c, s, id, o);
    }
  }

  lemma MovedOn(s: Sys, t: Sys, u: Sys, id: Id)
    requires (Moved(s, t, id) && Spared(t, u, id)) || (Spared(s, t, id) && Moved(t, u, id))
    ensures Moved(s, u, id)
  {
  }

  /** Everybody in the batch moved, and nobody else did. */
  ghost predicate AllMoved(s: Sys, r: Sys, ids: seq<Id>) {
    && (forall id :: id in ids ==> Moved(s, r, id))
    && (forall o :: o in s.clients && o !in ids ==> Spared(s, r, o))
  }

  lemma {:induction false} ConfirmAllMoves(c: Cfg, s: Sys, ids: seq<Id>, rows: seq<Vec>, outs: Id -> Outcome)
    requires Inv(c, s) && Pending(c, s, ids, rows)
    ensures AllMoved(s, ConfirmAll(c, s, ids, rows, outs), ids)
    decreases |ids|
  {
    if ids == [] {
      KeysMatch(c, s);
    } else {
      SchedLoop.NextPending(c, s, ids, rows, outs);
      PendingClients(c, s, ids, rows);
      ConfirmMoves(c, s, ids[0], rows[0], outs(ids[0]));
      var s1 := ConfirmOne(c, s, ids[0], rows[0], outs(ids[0]));
      ConfirmAllMoves(c, s1, ids[1..], rows[1..], outs);
      MovedThen(s, s1, ConfirmAll(c, s1, ids[1..], rows[1..], outs), ids);
    }
  }

  lemma MovedThen(s: Sys, s1: Sys, r: Sys, ids: seq<Id>)
    requires ids != [] && NoDups(ids) && (forall id :: id in ids ==> id in s.clients)
    requires Moved(s, s1, ids[0]) && (forall o :: o in s.clients && o != ids[0] ==> Spared(s, s1, o))
    requires AllMoved(s1, r, ids[1..])
    ensures AllMoved(s, r, ids)
  {
    forall id | id in ids
      ensures Moved(s, r, id)
    {
      if id == ids[0] {
        assert id !in ids[1..];
      } else {
        assert id in ids[1..];
      }
      MovedOn(s, s1, r, id);
    }
    forall o | o in s.clients && o !in ids
      ensures Spared(s, r, o)
    {
      assert o != ids[0] && Spared(s, s1, o);
      SparedTwice(s, s1, r, o);
    }
  }

  lemma BatchMoved(s: Sys, r: Sys, t: Sys, id: Id)
    requires r.clients == s.clients && id in Sorted(s.decoding) && AllMoved(r, t, Sorted(s.decoding))
    ensures Moved(s, t, id)
  {
  }

  lemma PendingClients(c: Cfg, s: Sys, ids: seq<Id>, rows: seq<Vec>)
    requires Inv(c, s) && Pending(c, s, ids, rows)
    ensures NoDups(ids) && forall id :: id in ids ==> id in s.clients
  {
    assert Queues(s);
    hide Inv;
    forall id | id in ids
      ensures id in s.clients
    {
      assert id in s.decoding;
    }
  }

  /** A decode step gives every decoding request a token or ends it. */
  lemma DecodeMoves(c: Cfg, s: Sys, outs: Id -> Outcome, id: Id)
    requires Inv(c, s) && id in s.decoding
    ensures Moved(s, SchedRuns.DecodeStep(c, s, outs), id)
  {
    RanPending(c, s);
    RanIs(c, s);
    SortedSame(s.decoding);
    hide Inv, Pending, ConfirmAll, Ran, Sorted;
    var (r, rows) := Ran(c, s);
    ConfirmAllMoves(c, r, Sorted(s.decoding), rows, outs);
    BatchMoved(s, r, SchedRuns.DecodeStep(c, s, outs), id);
  }

  // ---- what has ended by itself has told its client -------------------------------------------------------------

  ghost predicate AllTold(s: Sys) {
    forall id :: id in s.reqs ==> Told(s, id)
  }

  lemma AllMovedTold(s: Sys, r: Sys, t: Sys, ids: seq<Id>)
    requires AllTold(s) && r.clients == s.clients && r.reqs == s.reqs && AllMoved(r, t, ids)
    requires s.clients.Keys == s.reqs.Keys && t.reqs.Keys == s.reqs.Keys
    ensures AllTold(t)
  {
    forall id | id in t.reqs
      ensures Told(t, id)
    {
      if id !in ids {
        assert Told(s, id) && Spared(r, t, id);
      }
    }
  }

  lemma DecodeTold(c: Cfg, s: Sys, outs: Id -> Outcome)
    requires Inv(c, s) && AllTold(s)
    ensures AllTold(SchedRuns.DecodeStep(c, s, outs))
  {
    KeysMatch(c, s);
    DecodeFades(c, s, outs);
    if s.decoding != [] {
      RanPending(c, s);
      RanIs(c, s);
      hide Inv, Pending, ConfirmAll, Ran, Sorted, AllTold;
      var (r, rows) := Ran(c, s);
      ConfirmAllMoves(c, r, Sorted(s.decoding), rows, outs);
      AllMovedTold(s, r, SchedRuns.DecodeStep(c, s, outs), Sorted(s.decoding));
    }
  }

  lemma AbortTold(c: Cfg, s: Sys, id: Id)
    requires s.clients.Keys == s.reqs.Keys && AllTold(s)
    ensures AllTold(Abort(c, s, id))
  {
    if id in s.reqs && s.reqs[id].Live() {
      AbortMoves(c, s, id);
      AbortFields(c, s, id);
      hide Abort;
      forall o | o in Abort(c, s, id).reqs
        ensures Told(Abort(c, s, id), o)
      {
        if o != id {
          assert Told(s, o) && Spared(s, Abort(c, s, id), o);
        }
      }
    }
  }

  lemma AssignTold(c: Cfg, s: Sys, a: Assignment)
    requires Inv(c, s) && AssignmentOk(c, s, a) && AllTold(s)
    ensures AllTold(Assign(c, s, a))
  {
    AssignJoins(c, s, a);
    KeysMatch(c, s);
    hide Inv, Assign, AssignmentOk;
    if Proceeds(c, s, a) {
      JoinsTold(s, a, EndOf(s, a), Assign(c, s, a));
    }
  }

  lemma JoinsTold(s: Sys, a: Assignment, end: nat, t: Sys)
    requires Joins(s, a, end, t) && AllTold(s) && s.clients.Keys == s.reqs.Keys
    ensures AllTold(t)
  {
    forall o | o in t.reqs
      ensures Told(t, o)
    {
      assert o in s.reqs && Told(s, o);
    }
  }

  lemma PreemptTold(c: Cfg, s: Sys, id: Id)
    requires id in s.reqs && s.reqs[id].state == Decode && AllTold(s)
    ensures AllTold(PreemptVictim(c, s, id))
  {
    hide DropRefs, OwnWindow;
    forall o | o in PreemptVictim(c, s, id).reqs
      ensures Told(PreemptVictim(c, s, id), o)
    {
      assert o in s.reqs && Told(s, o);
    }
  }

  lemma SubmitTold(c: Cfg, s: Sys, id: Id, job: Job)
    requires id !in s.reqs && AllTold(s)
    ensures AllTold(Submit(c, s, id, job))
  {
    forall o | o in Submit(c, s, id, job).reqs
      ensures Told(Submit(c, s, id, job), o)
    {
      assert o != id ==> Told(s, o);
    }
  }

  lemma NextTold(c: Cfg, s: Sys, e: Event)
    requires Inv(c, s) && Enabled(c, s, e) && AllTold(s)
    ensures AllTold(Next(c, s, e))
  {
    hide Inv, Submit, Abort, PreemptVictim, Assign, AssignmentOk, SchedRuns.DecodeStep, AllTold, JobOk;
    KeysMatch(c, s);
    match e
    case Submitted(id, job) => SubmitTold(c, s, id, job);
    case AbortedBy(id) => AbortTold(c, s, id);
    case PreemptedBy(id) => PreemptKeeps(c, s, id); PreemptTold(c, s, id);
    case Prefilled(a) => AssignTold(c, s, a);
    case Decoded(outs) => DecodeTold(c, s, outs);
  }

  lemma {:induction false} RunTold(c: Cfg, s0: Sys, es: seq<Event>, s: Sys)
    requires Initial(c, s0) && Reaches(c, s0, es, s)
    ensures AllTold(s)
    decreases |es|
  {
    hide Inv, Next, Enabled;
    if es != [] {
      var prior, last := es[..|es| - 1], es[|es| - 1];
      var p :| Reaches(c, s0, prior, p) && Steps(c, p, last, s);
      RunTold(c, s0, prior, p);
      NextTold(c, p, last);
    }
  }

  /** In every reachable state a request that ended by itself has told its client so; otherwise it
      was aborted, by its client, by a fault, or because nobody was listening. */
  lemma EndedIsTold(c: Cfg, s: Sys, id: Id)
    requires Reachable(c, s) && id in s.reqs && !s.reqs[id].Live()
    ensures id in s.clients && (s.reqs[id].state == Aborted || s.clients[id].done)
  {
    hide Initial, Reaches;
    var s0, es :| Initial(c, s0) && Reaches(c, s0, es, s);
    RunTold(c, s0, es, s);
    assert Told(s, id);
  }

  // ---- one step of a server with room ------------------------------------------------------------------------

  /** Nobody who decodes stops, nobody arrives, and no client hears anything. */
  ghost predicate Quiet(s: Sys, t: Sys) {
    && t.reqs.Keys == s.reqs.Keys && (forall o :: o in s.decoding ==> o in t.decoding)
    && forall o :: o in s.clients ==>
         o in t.clients && t.clients[o].emitted == s.clients[o].emitted && t.clients[o].job == s.clients[o].job
  }

  lemma AssignQuiet(c: Cfg, s: Sys, a: Assignment)
    requires Inv(c, s) && AssignmentOk(c, s, a)
    ensures Quiet(s, Assign(c, s, a))
  {
    hide Inv, Assign, AssignmentOk;
    AssignJoins(c, s, a);
  }

  lemma {:induction false} PrefillsQuiet(c: Cfg, s: Sys, es: seq<Event>, t: Sys)
    requires Reaches(c, s, es, t) && forall i :: 0 <= i < |es| ==> es[i].Prefilled?
    ensures Quiet(s, t)
    decreases |es|
  {
    hide Inv, Assign, AssignmentOk;
    if es != [] {
      var prior, last := es[..|es| - 1], es[|es| - 1];
      var p :| Reaches(c, s, prior, p) && Steps(c, p, last, t);
      PrefillsQuiet(c, s, prior, p);
      AssignQuiet(c, p, last.a);
    }
  }

  lemma ProgressQuiet(c: Cfg, s: Sys, picks: seq<Assignment>, mid: Sys)
    requires SchedLoop.Progress(c, s, [], picks, mid)
    ensures Quiet(s, mid)
  {
    hide Reaches, SchedLoop.Allots;
    var es: seq<Event> :| SchedLoop.Carries(es, [], picks) && SchedLoop.Allots(c, s, es, mid);
    assert es[0..] == es;
    SchedLoop.AllotsReaches(c, s, es, mid);
    PrefillsQuiet(c, s, es, mid);
  }

  /** With room nothing that decodes is preempted. */
  lemma CalmQuiet(c: Cfg, k: Limits, v: Server, granted: set<Id>, hits: Id -> Option<(Key, nat)>,
                  outs: Id -> Outcome, mid: Sys, w: Server)
    requires Calm(c, k, v) && Room(c, AdmitCap(c, k.maxSeqs), v.s) && c.maxLen <= k.chunk
    requires Iterated(c, k, v, granted, hits, outs, mid, w)
    ensures Quiet(v.s, mid)
  {
    hide Inv, Fresh, Room, AdmitCap, Selected, SchedLoop.Progress, WholePrompt, Admit, SchedRuns.DecodeStep, HitsOk, Quiet;
    var (ids, working) := Admit(v.s.waiting, v.est, granted, AdmitCap(c, k.maxSeqs));
    QueueDistinct(c, v.s);
    AdmitIs(v.s.waiting, v.est, granted, AdmitCap(c, k.maxSeqs));
    SelectsWhole(c, v.s, ids, working, AdmitCap(c, k.maxSeqs), k.chunk);
    ProgressQuiet(c, v.s, Picks(Selected(c, v.s, ids, k.chunk).prefill, hits), mid);
  }

  lemma QuietMoved(s: Sys, mid: Sys, t: Sys, id: Id)
    requires Quiet(s, mid) && Moved(mid, t, id) && id in s.clients
    ensures Moved(s, t, id)
  {
  }

  /** A prompt prefilled as a whole decodes. */
  lemma WholeDecodes(c: Cfg, s: Sys, id: Id)
    requires Inv(c, s) && id in s.reqs && s.reqs[id].Live() && id in s.clients
    requires s.reqs[id].cached == |s.clients[id].job.prompt| > 0
    ensures id in s.decoding
  {
    assert IdOk(c, s, id);
  }

  /** With room the selector cuts a slice of the whole prompt for everybody the gate lets in. */
  lemma SliceForAll(c: Cfg, s: Sys, ids: seq<Id>, working: set<Id>, cap: nat, chunk: nat, id: Id)
    requires Inv(c, s) && Fresh(s) && Room(c, cap, s) && Shown(s, ids) && NoDups(ids) && |working| <= cap
    requires (forall o :: o in ids ==> o in working) && (forall o :: o in s.decoding ==> o in working)
    requires c.maxLen <= chunk && id in ids
    ensures id in s.clients && |s.clients[id].job.prompt| > 0
    ensures Slice(id, 0, |s.clients[id].job.prompt|) in Selected(c, s, ids, chunk).prefill
  {
    hide Inv, Fresh, Room, Select, Budget, DecodingViews, WaitingReq.Want, WaitingViews;
    BudgetCovers(c, s, ids, working, cap, chunk);
    ViewsDistinct(s, ids, chunk);
    WholeIff(WaitingViews(s, ids, chunk), DecodingViews(s), Budget(c, s), 0);
    WholeView(c, s, id, chunk);
    PromptPositive(c, s, id);
    var i :| 0 <= i < |ids| && ids[i] == id;
    assert WaitingViews(s, ids, chunk)[i] == WaitingView(s, id, chunk);
  }

  lemma PromptPositive(c: Cfg, s: Sys, id: Id)
    requires Inv(c, s) && id in s.waiting
    ensures id in s.clients && |s.clients[id].job.prompt| > 0
  {
    assert id in s.meta && IdOk(c, s, id);
  }

  /** In a step of a server with room and the cache off, everybody who decoded and everybody the
      gate let in receives a token or ends. */
  lemma StepMoves(c: Cfg, k: Limits, v: Server, granted: set<Id>, hits: Id -> Option<(Key, nat)>,
                  outs: Id -> Outcome, mid: Sys, w: Server, id: Id)
    requires Calm(c, k, v) && Room(c, AdmitCap(c, k.maxSeqs), v.s) && c.maxLen <= k.chunk
    requires Iterated(c, k, v, granted, hits, outs, mid, w)
    requires id in v.s.decoding
             || (v.s.cache == None && Seated(c, k, v) && id in Admit(v.s.waiting, v.est, granted, AdmitCap(c, k.maxSeqs)).0)
    ensures Moved(v.s, w.s, id)
  {
    hide Inv, Fresh, Room, AdmitCap, Selected, SchedLoop.Progress, Admit, SchedRuns.DecodeStep,
         HitsOk, Quiet, Moved, Placed, OnGrid;
    CalmQuiet(c, k, v, granted, hits, outs, mid, w);
    if id in v.s.decoding {
      DecodingClient(c, v.s, mid, id);
    } else {
      GateDecodes(c, k, v, granted, hits, outs, mid, w, id);
    }
    DecodeMoves(c, mid, outs, id);
    QuietMoved(v.s, mid, w.s, id);
  }

  lemma DecodingClient(c: Cfg, s: Sys, mid: Sys, id: Id)
    requires Inv(c, s) && Quiet(s, mid) && id in s.decoding
    ensures id in s.clients && id in mid.decoding
  {
  }

  lemma GateDecodes(c: Cfg, k: Limits, v: Server, granted: set<Id>, hits: Id -> Option<(Key, nat)>,
                    outs: Id -> Outcome, mid: Sys, w: Server, id: Id)
    requires Calm(c, k, v) && Room(c, AdmitCap(c, k.maxSeqs), v.s) && c.maxLen <= k.chunk && Quiet(v.s, mid)
    requires Seated(c, k, v) && Iterated(c, k, v, granted, hits, outs, mid, w)
    requires id in Admit(v.s.waiting, v.est, granted, AdmitCap(c, k.maxSeqs)).0
    ensures id in v.s.clients && id in mid.decoding
  {
    hide Inv, Fresh, Room, AdmitCap, Selected, SchedLoop.Progress, Admit, SchedRuns.DecodeStep, HitsOk, Placed, OnGrid,
         AllSlicesStarted, Started;
    var (ids, working) := Admit(v.s.waiting, v.est, granted, AdmitCap(c, k.maxSeqs));
    EstPlaces(c, k, v, granted);
    IterateStarts(c, k, v, granted, hits, outs, mid, w);
    SliceForAll(c, v.s, ids, working, AdmitCap(c, k.maxSeqs), k.chunk, id);
    WholeStarted(v.s, Selected(c, v.s, ids, k.chunk).prefill, mid, id);
    SegmentLive(c, mid, id);
    KeysMatch(c, mid);
    WholeDecodes(c, mid, id);
  }

  lemma WholeStarted(s: Sys, slices: seq<Slice>, mid: Sys, id: Id)
    requires AllSlicesStarted(s, slices, mid) && id in s.clients && |s.clients[id].job.prompt| > 0
    requires Slice(id, 0, |s.clients[id].job.prompt|) in slices
    ensures id in mid.segs && id in mid.reqs && mid.reqs[id].Live() && mid.reqs[id].cached == |s.clients[id].job.prompt|
  {
    var i :| 0 <= i < |slices| && slices[i] == Slice(id, 0, |s.clients[id].job.prompt|);
    assert SliceStarted(s, slices[i], mid);
  }

  // ---- whole runs ----------------------------------------------------------------------------------------------

  /** From `v` to `w` in `n` moves of the server, `m` of them scheduling steps and the others
      commands. */
  ghost predicate Continues(c: Cfg, k: Limits, v: Server, n: nat, m: nat, w: Server) {
    if n == 0 then m == 0 && w == v
    else
      || (exists u :: Continues(c, k, v, n - 1, m, u) && Commanded(c, u, w))
      || (m > 0 && exists u :: Continues(c, k, v, n - 1, m - 1, u) && Scheduled(c, k, u, w))
  }

  lemma ServesNext(c: Cfg, k: Limits, n: nat, v: Server, w: Server)
    requires Serves(c, k, n, v) && ServedStep(c, k, v, w)
    ensures Serves(c, k, n + 1, w)
  {
    hide ServedStep;
  }

  /** The request has ended, or decodes and has had a token from each of `m` steps. */
  ghost predicate Fed(s: Sys, t: Sys, id: Id, m: nat) {
    && id in s.clients && id in t.clients && id in t.reqs
    && (!t.reqs[id].Live() || (id in t.decoding && |t.clients[id].emitted| == |s.clients[id].emitted| + m))
  }

  lemma CommandFeeds(c: Cfg, s: Sys, u: Server, w: Server, id: Id, m: nat)
    requires Inv(c, u.s) && Commanded(c, u, w) && Fed(s, u.s, id, m)
    ensures Fed(s, w.s, id, m)
  {
    hide Inv, Submit, Abort, StillLive, JobOk;
    KeysMatch(c, u.s);
    if o: Id, job: Job :| o !in u.s.reqs && (job.prompt != [] ==> JobOk(c, job))
                          && w == Server(Submit(c, u.s, o, job), u.est) {
      SubmitSpares(c, u.s, o, job, id);
    } else {
      var o: Id :| w == Server(Abort(c, u.s, o), StillLive(u.est, Abort(c, u.s, o).reqs));
      if o == id {
        AbortEnds(c, u.s, id);
      } else {
        AbortSpares(c, u.s, o, id);
      }
    }
  }

  lemma SubmitSpares(c: Cfg, s: Sys, id: Id, job: Job, o: Id)
    requires id !in s.reqs && s.clients.Keys == s.reqs.Keys && o in s.clients
    ensures Spared(s, Submit(c, s, id, job), o)
  {
  }

  lemma ScheduleFeeds(c: Cfg, k: Limits, s: Sys, u: Server, w: Server, id: Id, m: nat)
    requires Reachable(c, u.s) && Calm(c, k, u) && Room(c, AdmitCap(c, k.maxSeqs), u.s) && c.maxLen <= k.chunk
    requires Scheduled(c, k, u, w) && Fed(s, u.s, id, m)
    ensures Fed(s, w.s, id, m + 1)
  {
    hide Inv, Fresh, Room, AdmitCap, Iterated, Onward, Reachable;
    var granted, hits, outs, mid :| Iterated(c, k, u, granted, hits, outs, mid, w);
    IterateOnward(c, k, u, granted, hits, outs, mid, w);
    ReachableInv(c, w.s);
    KeysMatch(c, w.s);
    if u.s.reqs[id].Live() {
      StepMoves(c, k, u, granted, hits, outs, mid, w, id);
    } else {
      StaysEnded(u.s, w.s, id);
    }
  }

  lemma StaysEnded(s: Sys, t: Sys, id: Id)
    requires Onward(s, t) && id in s.reqs && !s.reqs[id].Live()
    ensures id in t.reqs && !t.reqs[id].Live()
  {
  }

  lemma RoomBefore(c: Cfg, k: Limits, u: Server, w: Server)
    requires Reachable(c, u.s) && ServedStep(c, k, u, w) && Room(c, AdmitCap(c, k.maxSeqs), w.s)
    ensures Room(c, AdmitCap(c, k.maxSeqs), u.s) && Inv(c, u.s)
  {
    hide Inv, Reachable, ServedStep, AdmitCap;
    ReachableInv(c, u.s);
    ServedOnward(c, k, u, w);
    OnwardRetires(u.s, w.s);
  }

  /** While there is room, a decoding request keeps its place and receives a token from every
      scheduling step until it ends, whatever commands come between. */
  lemma {:induction false} KeepsServing(c: Cfg, k: Limits, n0: nat, v: Server, n: nat, m: nat, w: Server, id: Id)
    requires Serves(c, k, n0, v) && Continues(c, k, v, n, m, w) && c.maxLen <= k.chunk
    requires Room(c, AdmitCap(c, k.maxSeqs), w.s)
    requires id in v.s.clients && id in v.s.reqs && (v.s.reqs[id].Live() ==> id in v.s.decoding)
    ensures Fed(v.s, w.s, id, m)
  {
    hide Serves, Commanded, Scheduled, Room, AdmitCap, Fed, Inv, Reachable, Calm;
    if n == 0 {
      FedStart(v.s, id);
    } else if u :| Continues(c, k, v, n - 1, m, u) && Commanded(c, u, w) {
      Precedes(c, k, n0, v, n - 1, m, u, w);
      KeepsServing(c, k, n0, v, n - 1, m, u, id);
      CommandFeeds(c, v.s, u, w, id, m);
    } else {
      var u :| Continues(c, k, v, n - 1, m - 1, u) && Scheduled(c, k, u, w);
      Precedes(c, k, n0, v, n - 1, m - 1, u, w);
      KeepsServing(c, k, n0, v, n - 1, m - 1, u, id);
      ScheduleFeeds(c, k, v.s, u, w, id, m - 1);
    }
  }

  lemma FedStart(s: Sys, id: Id)
    requires id in s.clients && id in s.reqs && (s.reqs[id].Live() ==> id in s.decoding)
    ensures Fed(s, s, id, 0)
  {
  }

  lemma {:induction false} ContinuesServes(c: Cfg, k: Limits, n0: nat, v: Server, n: nat, m: nat, w: Server)
    requires Serves(c, k, n0, v) && Continues(c, k, v, n, m, w)
    ensures Serves(c, k, n0 + n, w)
  {
    hide Serves, Commanded, Scheduled;
    if n > 0 {
      if u :| Continues(c, k, v, n - 1, m, u) && Commanded(c, u, w) {
        ContinuesServes(c, k, n0, v, n - 1, m, u);
        ServesNext(c, k, n0 + n - 1, u, w);
      } else {
        var u :| Continues(c, k, v, n - 1, m - 1, u) && Scheduled(c, k, u, w);
        ContinuesServes(c, k, n0, v, n - 1, m - 1, u);
        ServesNext(c, k, n0 + n - 1, u, w);
      }
    }
  }

  /** Before a move that leaves room there was room, and the server was calm. */
  lemma Precedes(c: Cfg, k: Limits, n0: nat, v: Server, n: nat, m: nat, u: Server, w: Server)
    requires Serves(c, k, n0, v) && Continues(c, k, v, n, m, u) && ServedStep(c, k, u, w) && c.maxLen <= k.chunk
    requires Room(c, AdmitCap(c, k.maxSeqs), w.s)
    ensures Room(c, AdmitCap(c, k.maxSeqs), u.s) && Calm(c, k, u) && Inv(c, u.s) && Reachable(c, u.s)
    ensures Serves(c, k, n0 + n + 1, w)
  {
    hide Serves, ServedStep, Room, AdmitCap, Inv, Reachable, Continues;
    ContinuesServes(c, k, n0, v, n, m, u);
    ServesNext(c, k, n0 + n, u, w);
    ServesReach(c, k, n0 + n, u);
    RoomBefore(c, k, u, w);
    ServesCalm(c, k, n0 + n, u);
  }

  lemma OnwardTwice(s: Sys, t: Sys, u: Sys)
    requires Onward(s, t) && Onward(t, u)
    ensures Onward(s, u)
  {
  }

  lemma ServedOn(c: Cfg, k: Limits, n: nat, v: Server, w: Server)
    requires Serves(c, k, n, v) && ServedStep(c, k, v, w)
    ensures Onward(v.s, w.s)
  {
    hide Serves, ServedStep, Onward, Inv, Reachable;
    ServesReach(c, k, n, v);
    ReachableInv(c, v.s);
    ServedOnward(c, k, v, w);
  }

  lemma {:induction false} ContinuesOnward(c: Cfg, k: Limits, n0: nat, v: Server, n: nat, m: nat, w: Server)
    requires Serves(c, k, n0, v) && Continues(c, k, v, n, m, w)
    ensures Onward(v.s, w.s)
  {
    hide Serves, Commanded, Scheduled, Onward;
    if n == 0 {
      OnwardSame(v.s);
    } else if u :| Continues(c, k, v, n - 1, m, u) && Commanded(c, u, w) {
      ContinuesOnward(c, k, n0, v, n - 1, m, u);
      ContinuesServes(c, k, n0, v, n - 1, m, u);
      ServedOn(c, k, n0 + n - 1, u, w);
      OnwardTwice(v.s, u.s, w.s);
    } else {
      var u :| Continues(c, k, v, n - 1, m - 1, u) && Scheduled(c, k, u, w);
      ContinuesOnward(c, k, n0, v, n - 1, m - 1, u);
      ContinuesServes(c, k, n0, v, n - 1, m - 1, u);
      ServedOn(c, k, n0 + n - 1, u, w);
      OnwardTwice(v.s, u.s, w.s);
    }
  }

  lemma OnwardSame(s: Sys)
    ensures Onward(s, s)
  {
  }

  /** A decoding request that never restarted has sent at most its token limit. */
  lemma EmittedBound(c: Cfg, s: Sys, id: Id)
    requires Inv(c, s) && Fresh(s) && id in s.decoding && id in s.clients
    ensures |s.clients[id].emitted| <= s.clients[id].job.maxTokens
  {
    DecodingState(c, s, id);
    assert IdOk(c, s, id) && ChainOk(c, s.meta[id], s.clients[id]);
    assert Hist(s.meta[id]) == s.clients[id].job.prompt + s.clients[id].emitted;
  }

  /** A waiting request of a server with room has sent nothing. */
  lemma WaitingSilent(c: Cfg, s: Sys, id: Id)
    requires Inv(c, s) && Fresh(s) && id in s.waiting
    ensures id in s.clients && s.clients[id].emitted == []
  {
    assert id in s.meta && IdOk(c, s, id) && ChainOk(c, s.meta[id], s.clients[id]);
  }

  lemma EligibleWaits(c: Cfg, s: Sys, est: set<Id>, granted: set<Id>, cap: nat, id: Id)
    requires Inv(c, s) && id in Admit(s.waiting, est, granted, cap).0
    ensures id in s.waiting
  {
    hide Inv;
    AdmitShown(c, s, est, granted, cap);
  }

  /** In a run of the server with room and the cache off, a request the gate lets in has its first
      token, or has ended, at the end of that very step. */
  lemma GateFeeds(c: Cfg, k: Limits, n0: nat, v: Server, granted: set<Id>, hits: Id -> Option<(Key, nat)>,
                  outs: Id -> Outcome, mid: Sys, u: Server, id: Id)
    requires Serves(c, k, n0, v) && v.s.cache == None && c.maxLen <= k.chunk && Room(c, AdmitCap(c, k.maxSeqs), v.s)
    requires Iterated(c, k, v, granted, hits, outs, mid, u)
    requires id in Admit(v.s.waiting, v.est, granted, AdmitCap(c, k.maxSeqs)).0
    ensures id in u.s.clients && id in u.s.reqs
    ensures u.s.reqs[id].Live() ==> id in u.s.decoding && |u.s.clients[id].emitted| == 1
  {
    hide Serves, Iterated, Room, AdmitCap, Admit, Inv, Fresh, Reachable, Seated, Moved;
    ServesCalm(c, k, n0, v);
    ServesSeated(c, k, n0, v);
    EligibleWaits(c, v.s, v.est, granted, AdmitCap(c, k.maxSeqs), id);
    WaitingSilent(c, v.s, id);
    StepMoves(c, k, v, granted, hits, outs, mid, u, id);
    FirstToken(v.s, u.s, id);
  }

  /** A request the gate lets in ends within its token limit in scheduling steps: while there is
      room and the cache is off, after the admitting step and `m` more it has ended, or has
      received exactly `m + 1` tokens and still decodes; after as many as its limit it was aborted,
      or its client has the whole stream of the job run alone.  Commands for other requests, and
      for it, may come at any moment. */
  lemma AdmittedEnds(c: Cfg, k: Limits, n0: nat, v: Server, granted: set<Id>, hits: Id -> Option<(Key, nat)>,
                     outs: Id -> Outcome, mid: Sys, u: Server, n: nat, m: nat, w: Server, id: Id)
    requires Serves(c, k, n0, v) && v.s.cache == None && c.maxLen <= k.chunk
    requires Iterated(c, k, v, granted, hits, outs, mid, u)
    requires id in Admit(v.s.waiting, v.est, granted, AdmitCap(c, k.maxSeqs)).0
    requires Continues(c, k, u, n, m, w) && Room(c, AdmitCap(c, k.maxSeqs), w.s)
    ensures id in w.s.reqs && id in w.s.clients && |w.s.clients[id].job.prompt| > 0
    ensures var cl := w.s.clients[id];
            && (w.s.reqs[id].Live() ==> id in w.s.decoding && |cl.emitted| == m + 1 <= cl.job.maxTokens)
            && (m >= cl.job.maxTokens ==>
                  w.s.reqs[id].state == Aborted || (cl.done && cl.emitted == SerialStream(c.Net(), Served(cl.job))))
  {
    hide Serves, Iterated, Room, AdmitCap, Admit, Onward, Fed, Calm, Continues, ServedStep, Reachable;
    StepIsServed(c, k, v, granted, hits, outs, mid, u);
    ServesNext(c, k, n0, v, u);
    ContinuesOnward(c, k, n0 + 1, u, n, m, w);
    RoomAll(c, k, n0, v, u, w);
    GateFeeds(c, k, n0, v, granted, hits, outs, mid, u, id);
    KeepsServing(c, k, n0 + 1, u, n, m, w, id);
    LastToken(u.s, w.s, id, m);
    ContinuesServes(c, k, n0 + 1, u, n, m, w);
    ServedIsolation(c, k, n0 + 1 + n, w, id);
    ServesReach(c, k, n0 + 1 + n, w);
    if w.s.reqs[id].Live() {
      WithinLimit(c, k, n0 + 1, u, n, m, w, id);
    } else {
      EndedIsTold(c, w.s, id);
    }
  }

  lemma StepIsServed(c: Cfg, k: Limits, v: Server, granted: set<Id>, hits: Id -> Option<(Key, nat)>,
                     outs: Id -> Outcome, mid: Sys, u: Server)
    requires Iterated(c, k, v, granted, hits, outs, mid, u)
    ensures ServedStep(c, k, v, u)
  {
    hide Iterated, Commanded;
  }

  lemma WithinLimit(c: Cfg, k: Limits, n0: nat, u: Server, n: nat, m: nat, w: Server, id: Id)
    requires Serves(c, k, n0, u) && Continues(c, k, u, n, m, w) && c.maxLen <= k.chunk
    requires Room(c, AdmitCap(c, k.maxSeqs), w.s) && id in w.s.decoding && id in w.s.clients
    ensures |w.s.clients[id].emitted| <= w.s.clients[id].job.maxTokens
  {
    hide Serves, Continues, Room, AdmitCap, Inv, Fresh, Reachable;
    ContinuesServes(c, k, n0, u, n, m, w);
    ServesCalm(c, k, n0 + n, w);
    EmittedBound(c, w.s, id);
  }

  lemma RoomAll(c: Cfg, k: Limits, n0: nat, v: Server, u: Server, w: Server)
    requires Serves(c, k, n0, v) && ServedStep(c, k, v, u) && Onward(u.s, w.s) && Room(c, AdmitCap(c, k.maxSeqs), w.s)
    ensures Room(c, AdmitCap(c, k.maxSeqs), v.s)
  {
    hide Serves, ServedStep, Onward, AdmitCap;
    OnwardRetires(u.s, w.s);
    ServedOn(c, k, n0, v, u);
    OnwardRetires(v.s, u.s);
  }

  lemma FirstToken(s: Sys, t: Sys, id: Id)
    requires Moved(s, t, id) && s.clients[id].emitted == []
    ensures id in t.clients && id in t.reqs
    ensures t.reqs[id].Live() ==> id in t.decoding && |t.clients[id].emitted| == 1
  {
  }

  lemma LastToken(s: Sys, t: Sys, id: Id, m: nat)
    requires Fed(s, t, id, m) && Onward(s, t) && id in s.reqs && (s.reqs[id].Live() ==> |s.clients[id].emitted| == 1)
    ensures id in t.clients && id in t.reqs
    ensures t.reqs[id].Live() ==> id in t.decoding && |t.clients[id].emitted| == m + 1
  {
  }

  // ---- the server is never stuck ------------------------------------------------------------------------------

  /** If a window is free, one that starts where a taken page or the pool ends is. */
  lemma {:induction false} FirstFitBase(refs: seq<nat>, base: nat, n: nat) returns (first: nat)
    requires SegmentPool.AllZero(refs, base, n) && n > 0
    ensures SegmentPool.AllZero(refs, first, n) && (first > 0 ==> refs[first - 1] > 0)
  {
    if base > 0 && refs[base - 1] == 0 {
      first := FirstFitBase(refs, base - 1, n);
    } else {
      first := base;
    }
  }

  lemma PoolAnswers(c: Cfg, s: Sys, pick: Assignment) returns (a: Assignment)
    requires Inv(c, s) && AssignmentOk(c, s, pick) && pick.alloc == None
    ensures a.(alloc := None) == pick && AssignmentOk(c, s, a) && SchedLoop.Answered(c, s, a)
  {
    hide Inv, AssignmentOk, SchedLoop.Answered, SegmentPool.AllZero, EndOf;
    SchedLoop.InvBooks(c, s);
    WindowPositive(c);
    if base: nat :| SegmentPool.AllZero(s.x.refs, base, c.W()) {
      var first := FirstFitBase(s.x.refs, base, c.W());
      a := pick.(alloc := Some(first));
      SchedLoop.AllocOk(c, s, pick, first);
      SomeAnswered(c, s, pick, first);
    } else {
      a := pick;
      NoneAnswered(c, s, pick);
    }
  }

  lemma SomeAnswered(c: Cfg, s: Sys, pick: Assignment, first: nat)
    requires AssignmentOk(c, s, pick) && SegmentPool.AllZero(s.x.refs, first, c.W())
    requires first > 0 ==> s.x.refs[first - 1] > 0
    ensures SchedLoop.Answered(c, s, pick.(alloc := Some(first)))
  {
  }

  lemma NoneAnswered(c: Cfg, s: Sys, pick: Assignment)
    requires AssignmentOk(c, s, pick) && forall base: nat :: !SegmentPool.AllZero(s.x.refs, base, c.W())
    ensures SchedLoop.Answered(c, s, pick.(alloc := None))
  {
  }

  lemma {:induction false} CanPrefill(c: Cfg, s0: Sys, victims: seq<Id>, done: seq<Assignment>, s: Sys, picks: seq<Assignment>)
    returns (t: Sys)
    requires SchedLoop.Progress(c, s0, victims, done, s) && Inv(c, s) && SchedLoop.SelectionOk(c, s, [], picks)
    ensures SchedLoop.Progress(c, s0, victims, done + picks, t) && Inv(c, t)
    decreases |picks|
  {
    hide Inv, SchedLoop.Progress, Assign, AssignmentOk, SchedLoop.Answered;
    if picks == [] {
      t := s;
      assert done + picks == done;
    } else {
      FirstPick(c, s, picks);
      var a := PoolAnswers(c, s, picks[0]);
      SchedLoop.InvBooks(c, s);
      SchedLoop.PickNext(c, s, picks, a);
      AssignKeeps(c, s, a);
      SchedLoop.PickReach(c, s0, victims, done, s, picks[0], a);
      assert (done + [picks[0]]) + picks[1..] == done + picks;
      t := CanPrefill(c, s0, victims, done + [picks[0]], Assign(c, s, a), picks[1..]);
    }
  }

  lemma FirstPick(c: Cfg, s: Sys, picks: seq<Assignment>)
    requires SchedLoop.SelectionOk(c, s, [], picks) && picks != []
    ensures AssignmentOk(c, s, picks[0]) && picks[0].alloc == None
  {
  }

  lemma {:induction false} CanPreempt(c: Cfg, s0: Sys, done: seq<Id>, s: Sys, victims: seq<Id>, picks: seq<Assignment>)
    returns (t: Sys)
    requires SchedLoop.Progress(c, s0, done, [], s) && Inv(c, s) && SchedLoop.SelectionOk(c, s, victims, picks)
    ensures SchedLoop.Progress(c, s0, done + victims, picks, t) && Inv(c, t)
    decreases |victims|
  {
    hide Inv, SchedLoop.Progress, PreemptVictim, SchedLoop.SelectionOk;
    if victims == [] {
      assert done + victims == done && [] + picks == picks;
      t := CanPrefill(c, s0, done, [], s, picks);
    } else {
      SchedLoop.VictimNext(c, s, victims, picks);
      SchedLoop.VictimReach(c, s0, done, s, victims[0]);
      PreemptKeeps(c, s, victims[0]);
      assert (done + [victims[0]]) + victims[1..] == done + victims;
      t := CanPreempt(c, s0, done + [victims[0]], PreemptVictim(c, s, victims[0]), victims[1..], picks);
    }
  }

  /** From every reachable state, whatever the gates grant, the cache answers and the environment
      does to the batch, the server can take a scheduling step. */
  lemma NeverStuck(c: Cfg, k: Limits, v: Server, granted: set<Id>, hits: Id -> Option<(Key, nat)>, outs: Id -> Outcome)
    returns (mid: Sys, w: Server)
    requires Reachable(c, v.s) && HitsOk(c, v.s, hits)
    ensures Iterated(c, k, v, granted, hits, outs, mid, w)
  {
    hide Inv, Reachable, AdmitCap, Select, HitsOk, SchedLoop.Progress, SchedRuns.DecodeStep, SchedLoop.SelectionOk;
    ReachableInv(c, v.s);
    var (ids, working) := Admit(v.s.waiting, v.est, granted, AdmitCap(c, k.maxSeqs));
    AdmitShown(c, v.s, v.est, granted, AdmitCap(c, k.maxSeqs));
    SelectedOk(c, v.s, ids, k.chunk, hits);
    var sel := Selected(c, v.s, ids, k.chunk);
    SchedLoop.NoProgress(c, v.s);
    mid := CanPreempt(c, v.s, [], v.s, sel.preempted, Picks(sel.prefill, hits));
    assert [] + sel.preempted == sel.preempted;
    var t := SchedRuns.DecodeStep(c, mid, outs);
    w := Server(t, StillLive(working, t.reqs));
  }
}
