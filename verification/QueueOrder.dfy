/** The waiting queue over whole runs: who joins it where, who leaves it, and that requests which
    were never started stay in the order they came, behind those that were preempted. */
module QueueOrder {
  import opened Transformer
  import opened PagedKv
  import opened Requests
  import opened SchedState
  import opened ExecSteps
  import opened SchedSteps
  import opened SchedRelease
  import opened SchedPrefill
  import opened SchedDecode
  import opened SchedConfirm
  import opened SchedRuns
  import opened StepBudget

  // ---- taking one out ----------------------------------------------------------------------------------

  /** `r` is `q` without `id`, everybody else in place. */
  ghost predicate TakenOut(q: seq<Id>, id: Id, r: seq<Id>) {
    if id in q then exists i :: 0 <= i < |q| && q[i] == id && r == q[..i] + q[i + 1..] else r == q
  }

  lemma {:induction false} WithoutAbsent(q: seq<Id>, id: Id)
    requires id !in q
    ensures Without(q, id) == q
  {
    if q != [] {
      var rest, last := q[..|q| - 1], q[|q| - 1];
      assert q == rest + [last] && last != id && id !in rest;
      WithoutAbsent(rest, id);
    }
  }

  lemma {:induction false} WithoutAt(q: seq<Id>, id: Id) returns (i: nat)
    requires NoDups(q) && id in q
    ensures i < |q| && q[i] == id && Without(q, id) == q[..i] + q[i + 1..]
  {
    var rest, last := q[..|q| - 1], q[|q| - 1];
    assert q == rest + [last];
    if last == id {
      i := |q| - 1;
      WithoutAbsent(rest, id);
      assert q[i + 1..] == [];
    } else {
      i := WithoutAt(rest, id);
      assert q[i + 1..] == rest[i + 1..] + [last] && q[..i] == rest[..i];
    }
  }

  lemma WithoutTakesOut(q: seq<Id>, id: Id)
    requires NoDups(q)
    ensures TakenOut(q, id, Without(q, id))
  {
    hide Without;
    if id !in q {
      WithoutAbsent(q, id);
    } else {
      var i := WithoutAt(q, id);
    }
  }

  // ---- one step ------------------------------------------------------------------------------------------

  lemma NotWaiting(c: Cfg, s: Sys, id: Id)
    requires Inv(c, s) && id in s.decoding
    ensures id !in s.waiting && id in s.reqs && id in s.meta && id in s.segs && id in s.clients
    ensures s.reqs[id].state == Decode && JobOk(c, s.meta[id].job) && Shape(c, s) && Owned(c, s)
    ensures s.clients.Keys == s.reqs.Keys
  {
    DecodingState(c, s, id);
    assert IdOk(c, s, id);
  }

  lemma ConfirmWaiting(c: Cfg, s: Sys, id: Id, row: Vec, out: Outcome)
    requires Inv(c, s) && id in s.decoding
    ensures id in s.reqs && id in s.meta && id in s.segs && ConfirmOne(c, s, id, row, out).waiting == s.waiting
  {
    NotWaiting(c, s, id);
    hide Inv, ConfirmOne, Shape, Owned, Abort, Append;
    WithoutAbsent(s.waiting, id);
    FaultIs(c, s, id, row, out);
    if out.fault {
      AbortFields(c, s, id);
    } else if s.reqs[id].DecodeStep(TokenOf(c, s, id, row)).1.DecodeConfirmed? {
      GrowsIs(c, s, id, row, out);
      AppendGrown(s, id, row, TokenOf(c, s, id, row));
      AppendWaits(s, id, row, TokenOf(c, s, id, row));
      if !out.delivered {
        AbortFields(c, Append(s, id, row, TokenOf(c, s, id, row)).0, id);
      }
    } else {
      TerminalWaits(c, s, id, row, out);
    }
  }

  lemma AppendWaits(s: Sys, id: Id, row: Vec, token: Token)
    requires id in s.reqs && id in s.meta && id in s.clients && s.reqs[id].state == Decode
    ensures Append(s, id, row, token).0.waiting == Append(s, id, row, token).1.waiting == s.waiting
    ensures id in Append(s, id, row, token).0.reqs
  {
  }

  lemma TerminalWaits(c: Cfg, s: Sys, id: Id, row: Vec, out: Outcome)
    requires Shape(c, s) && Owned(c, s) && s.clients.Keys == s.reqs.Keys && id in s.reqs && id in s.meta && id in s.segs
    requires JobOk(c, s.meta[id].job) && s.reqs[id].state == Decode && !out.fault
    requires !s.reqs[id].DecodeStep(TokenOf(c, s, id, row)).1.DecodeConfirmed?
    ensures ConfirmOne(c, s, id, row, out).waiting == Without(s.waiting, id)
  {
    hide ConfirmOne, RefillRelease, Shape, Owned, TakeAndFlushStore, Without, AllFree;
    TerminalGone(c, s, id, row, out);
  }

  lemma {:induction false} ConfirmAllWaiting(c: Cfg, s: Sys, ids: seq<Id>, rows: seq<Vec>, outs: Id -> Outcome)
    requires Inv(c, s) && Pending(c, s, ids, rows)
    ensures ConfirmAll(c, s, ids, rows, outs).waiting == s.waiting
    decreases |ids|
  {
    if ids != [] {
      ConfirmKeeps(c, s, ids[0], rows[0], outs(ids[0]));
      ConfirmWaiting(c, s, ids[0], rows[0], outs(ids[0]));
      var s1 := ConfirmOne(c, s, ids[0], rows[0], outs(ids[0]));
      PendingTail(c, s, s1, ids, rows);
      hide ConfirmOne, Inv, Pending;
      ConfirmAllWaiting(c, s1, ids[1..], rows[1..], outs);
    }
  }

  lemma DecodeWaiting(c: Cfg, s: Sys, outs: Id -> Outcome)
    requires Inv(c, s)
    ensures SchedRuns.DecodeStep(c, s, outs).waiting == s.waiting
  {
    if s.decoding != [] {
      RanPending(c, s);
      RanIs(c, s);
      hide Inv, Pending, ConfirmAll, Ran, Sorted;
      ConfirmAllWaiting(c, Ran(c, s).0, Sorted(s.decoding), Ran(c, s).1, outs);
    }
  }

  /** What a step does to the queue: a new request joins at the back, a preempted one at the front;
      an aborted one and one whose prompt is complete leave; nobody else moves. */
  ghost predicate QueueStep(s: Sys, e: Event, t: Sys) {
    match e
    case Submitted(id, job) => t.waiting == if job.prompt == [] then s.waiting else s.waiting + [id]
    case AbortedBy(id) => TakenOut(s.waiting, id, t.waiting)
    case PreemptedBy(id) => t.waiting == [id] + s.waiting
    case Prefilled(a) => t.waiting == s.waiting || TakenOut(s.waiting, a.id, t.waiting)
    case Decoded(outs) => t.waiting == s.waiting
  }

  lemma AbortWaiting(c: Cfg, s: Sys, id: Id)
    requires Inv(c, s)
    ensures TakenOut(s.waiting, id, Abort(c, s, id).waiting)
  {
    KeysMatch(c, s);
    WaitingLive(c, s);
    WithoutTakesOut(s.waiting, id);
    hide Inv;
    if id in s.reqs && s.reqs[id].Live() {
      AbortFields(c, s, id);
    }
  }

  lemma WaitingLive(c: Cfg, s: Sys)
    requires Inv(c, s)
    ensures NoDups(s.waiting) && forall o :: o in s.waiting ==> o in s.reqs && s.reqs[o].Live()
  {
    forall o | o in s.waiting
      ensures o in s.reqs && s.reqs[o].Live()
    {
      assert o in s.meta && IdOk(c, s, o);
    }
  }

  lemma PreemptWaiting(c: Cfg, s: Sys, id: Id)
    requires id in s.reqs && s.reqs[id].state == Decode
    ensures PreemptVictim(c, s, id).waiting == [id] + s.waiting
  {
    hide DropRefs, OwnWindow;
  }

  /** Nobody's state changes but `id`'s, who is being prefilled or decodes now. */
  ghost predicate StartedOnly(s: Sys, id: Id, t: Sys) {
    && id in t.reqs && t.reqs == s.reqs[id := t.reqs[id]] && t.arrivals == s.arrivals
    && (t.reqs[id].state == Chunked || t.reqs[id].state == Decode)
  }

  lemma AssignWaiting(c: Cfg, s: Sys, a: Assignment)
    requires Inv(c, s) && AssignmentOk(c, s, a)
    ensures Assign(c, s, a).waiting == s.waiting || TakenOut(s.waiting, a.id, Assign(c, s, a).waiting)
    ensures Assign(c, s, a) == s || StartedOnly(s, a.id, Assign(c, s, a))
  {
    WithoutTakesOut(s.waiting, a.id);
    AssignJoins(c, s, a);
    if Proceeds(c, s, a) {
      var s1 := EntryOf(c, s, a);
      hide Inv, Dispatch, Assign, AssignmentOk, IdOk, OwnWindow, TakeRefs, TakenOut, Without;
      DispatchFields(c, s1, a, EndOf(s, a));
    }
  }

  lemma StepQueue(c: Cfg, s: Sys, e: Event)
    requires Inv(c, s) && Enabled(c, s, e)
    ensures QueueStep(s, e, Next(c, s, e))
  {
    hide Abort, PreemptVictim, Assign, SchedRuns.DecodeStep, TakenOut;
    match e
    case Submitted(id, job) =>
    case AbortedBy(id) =>
      AbortWaiting(c, s, id);
    case PreemptedBy(id) =>
      NotWaiting(c, s, id);
      PreemptWaiting(c, s, id);
    case Prefilled(a) =>
      AssignWaiting(c, s, a);
    case Decoded(outs) =>
      DecodeWaiting(c, s, outs);
  }

  // ---- whole runs ------------------------------------------------------------------------------------------

  predicate NeverStarted(s: Sys, id: Id) {
    id in s.reqs && s.reqs[id].state == Waiting
  }

  predicate WasPreempted(s: Sys, id: Id) {
    id in s.reqs && s.reqs[id].state == Preempted
  }

  /** `a` was submitted before `b`. */
  ghost predicate Earlier(arrivals: seq<Id>, a: Id, b: Id) {
    exists x, y :: 0 <= x < y < |arrivals| && arrivals[x] == a && arrivals[y] == b
  }

  /** Behind a request that was never started waits no preempted one, and no older one. */
  ghost predicate InOrder(s: Sys) {
    forall i, j :: 0 <= i < j < |s.waiting| && NeverStarted(s, s.waiting[i]) ==>
      && !WasPreempted(s, s.waiting[j])
      && (NeverStarted(s, s.waiting[j]) ==> Earlier(s.arrivals, s.waiting[i], s.waiting[j]))
  }

  /** Whoever has not been started, or was preempted, was so before. */
  ghost predicate NoneNew(s: Sys, t: Sys) {
    && s.arrivals <= t.arrivals
    && forall o :: o in s.waiting ==> (NeverStarted(t, o) ==> NeverStarted(s, o)) && (WasPreempted(t, o) ==> WasPreempted(s, o))
  }

  lemma EarlierStays(a: seq<Id>, b: seq<Id>, x: Id, y: Id)
    requires a <= b && Earlier(a, x, y)
    ensures Earlier(b, x, y)
  {
    var i, j :| 0 <= i < j < |a| && a[i] == x && a[j] == y;
    assert b[i] == x && b[j] == y;
  }

  lemma PairKept(s: Sys, t: Sys, i: nat, j: nat, x: Id, y: Id)
    requires InOrder(s) && NoneNew(s, t) && i < j < |s.waiting| && s.waiting[i] == x && s.waiting[j] == y
    requires NeverStarted(t, x)
    ensures !WasPreempted(t, y) && (NeverStarted(t, y) ==> Earlier(t.arrivals, x, y))
  {
    hide Earlier, NeverStarted, WasPreempted;
    if NeverStarted(t, y) {
      EarlierStays(s.arrivals, t.arrivals, x, y);
    }
  }

  lemma SameQueueOrder(s: Sys, t: Sys)
    requires InOrder(s) && NoneNew(s, t) && t.waiting == s.waiting
    ensures InOrder(t)
  {
    forall i, j | 0 <= i < j < |t.waiting| && NeverStarted(t, t.waiting[i])
      ensures !WasPreempted(t, t.waiting[j]) && (NeverStarted(t, t.waiting[j]) ==> Earlier(t.arrivals, t.waiting[i], t.waiting[j]))
    {
      PairKept(s, t, i, j, t.waiting[i], t.waiting[j]);
    }
  }

  lemma TakenOutOrder(s: Sys, t: Sys, id: Id)
    requires InOrder(s) && NoneNew(s, t) && TakenOut(s.waiting, id, t.waiting)
    ensures InOrder(t)
  {
    if id !in s.waiting {
      SameQueueOrder(s, t);
    } else {
      var k :| 0 <= k < |s.waiting| && s.waiting[k] == id && t.waiting == s.waiting[..k] + s.waiting[k + 1..];
      hide InOrder, NoneNew, TakenOut;
      GapOrder(s, t, k);
    }
  }

  lemma GapOrder(s: Sys, t: Sys, k: nat)
    requires InOrder(s) && NoneNew(s, t) && k < |s.waiting| && t.waiting == s.waiting[..k] + s.waiting[k + 1..]
    ensures InOrder(t)
  {
    hide NoneNew, NeverStarted, WasPreempted, Earlier;
    forall i, j | 0 <= i < j < |t.waiting| && NeverStarted(t, t.waiting[i])
      ensures !WasPreempted(t, t.waiting[j]) && (NeverStarted(t, t.waiting[j]) ==> Earlier(t.arrivals, t.waiting[i], t.waiting[j]))
    {
      var i', j' := if i < k then i else i + 1, if j < k then j else j + 1;
      assert t.waiting[i] == s.waiting[i'] && t.waiting[j] == s.waiting[j'];
      PairKept(s, t, i', j', t.waiting[i], t.waiting[j]);
    }
  }

  lemma FrontOrder(s: Sys, t: Sys, id: Id)
    requires InOrder(s) && NoneNew(s, t) && t.waiting == [id] + s.waiting && !NeverStarted(t, id)
    ensures InOrder(t)
  {
    forall i, j | 0 <= i < j < |t.waiting| && NeverStarted(t, t.waiting[i])
      ensures !WasPreempted(t, t.waiting[j]) && (NeverStarted(t, t.waiting[j]) ==> Earlier(t.arrivals, t.waiting[i], t.waiting[j]))
    {
      PairKept(s, t, i - 1, j - 1, t.waiting[i], t.waiting[j]);
    }
  }

  lemma BackOrder(s: Sys, t: Sys, id: Id)
    requires InOrder(s) && NoneNew(s, t) && t.waiting == s.waiting + [id] && t.arrivals == s.arrivals + [id]
    requires NeverStarted(t, id) && forall o :: o in s.waiting ==> o in s.arrivals
    ensures InOrder(t)
  {
    forall i, j | 0 <= i < j < |t.waiting| && NeverStarted(t, t.waiting[i])
      ensures !WasPreempted(t, t.waiting[j]) && (NeverStarted(t, t.waiting[j]) ==> Earlier(t.arrivals, t.waiting[i], t.waiting[j]))
    {
      if j < |s.waiting| {
        PairKept(s, t, i, j, t.waiting[i], t.waiting[j]);
      } else {
        assert t.waiting[i] in s.waiting;
        var x :| 0 <= x < |s.arrivals| && s.arrivals[x] == t.waiting[i];
        assert t.arrivals[x] == t.waiting[i] && t.arrivals[|s.arrivals|] == id;
      }
    }
  }

  lemma FadesNone(s: Sys, t: Sys)
    requires Fades(s, t) && forall o :: o in s.waiting ==> o in s.reqs
    ensures NoneNew(s, t)
  {
    forall o | o in s.waiting
      ensures (NeverStarted(t, o) ==> NeverStarted(s, o)) && (WasPreempted(t, o) ==> WasPreempted(s, o))
    {
      assert Ages(s.reqs[o], t.reqs[o]);
    }
  }

  lemma Queued(c: Cfg, s: Sys)
    requires Inv(c, s)
    ensures forall o :: o in s.waiting ==> o in s.reqs && o in s.arrivals
  {
  }

  lemma PreemptNone(c: Cfg, s: Sys, id: Id)
    requires id in s.reqs && s.reqs[id].state == Decode && id !in s.waiting
    ensures NoneNew(s, PreemptVictim(c, s, id)) && !NeverStarted(PreemptVictim(c, s, id), id)
  {
    hide DropRefs, OwnWindow;
  }

  lemma SubmitOrder(c: Cfg, s: Sys, id: Id, job: Job)
    requires Inv(c, s) && InOrder(s) && id !in s.reqs
    ensures InOrder(Submit(c, s, id, job))
  {
    Queued(c, s);
    hide Inv, InOrder, Earlier;
    if job.prompt != [] {
      BackOrder(s, Submit(c, s, id, job), id);
    }
  }

  lemma StartedNone(s: Sys, id: Id, t: Sys)
    requires StartedOnly(s, id, t)
    ensures NoneNew(s, t)
  {
  }

  lemma AssignOrder(c: Cfg, s: Sys, a: Assignment)
    requires Inv(c, s) && AssignmentOk(c, s, a) && InOrder(s)
    ensures InOrder(Assign(c, s, a))
  {
    hide AssignmentOk, InOrder, TakenOut, StartedOnly, NoneNew;
    AssignWaiting(c, s, a);
    hide Inv, Assign;
    if Assign(c, s, a) != s {
      StartedNone(s, a.id, Assign(c, s, a));
      if Assign(c, s, a).waiting == s.waiting {
        SameQueueOrder(s, Assign(c, s, a));
      } else {
        TakenOutOrder(s, Assign(c, s, a), a.id);
      }
    }
  }

  lemma StepOrder(c: Cfg, s: Sys, e: Event)
    requires Inv(c, s) && Enabled(c, s, e) && InOrder(s)
    ensures InOrder(Next(c, s, e))
  {
    Queued(c, s);
    hide Abort, PreemptVictim, Assign, SchedRuns.DecodeStep, TakenOut, InOrder, Submit, NoneNew, Fades;
    match e
    case Submitted(id, job) =>
      SubmitOrder(c, s, id, job);
    case AbortedBy(id) =>
      KeysMatch(c, s);
      AbortFades(c, s, id);
      FadesNone(s, Abort(c, s, id));
      AbortWaiting(c, s, id);
      TakenOutOrder(s, Abort(c, s, id), id);
    case PreemptedBy(id) =>
      NotWaiting(c, s, id);
      PreemptWaiting(c, s, id);
      PreemptNone(c, s, id);
      FrontOrder(s, PreemptVictim(c, s, id), id);
    case Prefilled(a) =>
      AssignOrder(c, s, a);
    case Decoded(outs) =>
      DecodeWaiting(c, s, outs);
      DecodeFades(c, s, outs);
      FadesNone(s, SchedRuns.DecodeStep(c, s, outs));
      SameQueueOrder(s, SchedRuns.DecodeStep(c, s, outs));
  }

  /** In every state of every run, requests that were never started wait in the order they were
      submitted, and none of them is ahead of a preempted one. */
  lemma {:induction false} RunInOrder(c: Cfg, s0: Sys, es: seq<Event>, s: Sys)
    requires Initial(c, s0) && Reaches(c, s0, es, s)
    ensures InOrder(s)
    decreases |es|
  {
    hide Inv, Next, Enabled, InOrder;
    if es == [] {
      NobodyWaits(s0);
    } else {
      var prior, last := es[..|es| - 1], es[|es| - 1];
      var p :| Reaches(c, s0, prior, p) && Steps(c, p, last, s);
      RunInOrder(c, s0, prior, p);
      StepOrder(c, p, last);
    }
  }

  lemma NobodyWaits(s: Sys)
    requires s.waiting == []
    ensures InOrder(s)
  {
  }
}
