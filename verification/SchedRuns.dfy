/** Whole runs of the scheduler: the global invariant holds after every command, admission
    choice and decode step, and what follows from it. */
module SchedRuns {
  import opened Transformer
  import opened PagedKv
  import opened Requests
  import opened SchedState
  import opened ExecSteps
  import opened SchedSteps
  import opened SchedRelease
  import opened SchedPrefill
  import opened SchedDecode
  import opened SchedConfirm

  // ---- one request of the decode loop ------------------------------------------------------------

  ghost function Unheard(s: Sys, id: Id, emitted: seq<Token>): Sys
    requires id in s.clients
  {
    s.(clients := s.clients[id := s.clients[id].(emitted := emitted)])
  }

  lemma FreeSegUnheard(c: Cfg, s: Sys, id: Id, emitted: seq<Token>)
    requires id in s.clients
    ensures id in FreeSeg(c, s, id).clients
    ensures FreeSeg(c, Unheard(s, id, emitted), id) == Unheard(FreeSeg(c, s, id), id, emitted)
  {
  }

  /** Aborting after a frame was lost is aborting after it was received, up to the client's
      record. */
  lemma UndeliveredAbort(c: Cfg, s3: Sys, s2: Sys, id: Id, emitted: seq<Token>)
    requires id in s3.reqs && s3.reqs[id].Live() && id in s3.clients && s3.clients.Keys == s3.reqs.Keys
    requires s2 == Unheard(s3, id, emitted)
    ensures var a := Abort(c, s3, id);
            && id in a.clients && id !in a.meta
            && Abort(c, s2, id) == Unheard(a, id, emitted)
  {
    var s0 := s3.(reqs := s3.reqs[id := s3.reqs[id].(state := Aborted)], returned := s3.returned + s3.reqs[id].device);
    FreeSegUnheard(c, s0, id, emitted);
    assert Unheard(s0, id, emitted) == s2.(reqs := s2.reqs[id := s2.reqs[id].(state := Aborted)], returned := s2.returned + s2.reqs[id].device);
    hide FreeSeg;
  }

  /** A client record may be replaced by one of the same job and the same segment counts. */
  ghost predicate SameButClient(a: Sys, b: Sys, id: Id) {
    && id in a.clients && id !in a.meta && id in b.clients
    && b == a.(clients := a.clients[id := b.clients[id]])
    && b.clients[id].job == a.clients[id].job && b.clients[id].allocs == a.clients[id].allocs
    && b.clients[id].frees == a.clients[id].frees && b.clients[id].restarted == a.clients[id].restarted
  }

  lemma ClientBooks(c: Cfg, a: Sys, b: Sys, id: Id)
    requires Books(c, a) && Ledger(a) && SameButClient(a, b, id)
    ensures Books(c, b) && Ledger(b)
  {
    forall o | o in b.reqs
      ensures IdOk(c, b, o)
    {
      assert IdOk(c, a, o);
    }
  }

  lemma ClientContent(c: Cfg, a: Sys, b: Sys, id: Id)
    requires Content(c, a) && SameButClient(a, b, id)
    ensures Content(c, b)
  {
    forall o | o in b.decoding && o in b.reqs && b.reqs[o].cached > 0
      ensures Lives(c, b, o, b.reqs[o].cached - 1)
    {
      assert Lives(c, a, o, a.reqs[o].cached - 1);
    }
  }

  lemma ClientIsolated(c: Cfg, a: Sys, b: Sys, id: Id)
    requires Isolated(c, a) && SameButClient(a, b, id)
    requires !b.clients[id].restarted ==> ClientOk(c, b.clients[id])
    ensures Isolated(c, b)
  {
  }

  /** Frames the client never received may be left out of its record. */
  lemma ForgetFrame(c: Cfg, a: Sys, b: Sys, id: Id)
    requires Inv(c, a) && SameButClient(a, b, id)
    requires !a.chunked && !b.clients[id].restarted ==> ClientOk(c, b.clients[id])
    ensures Inv(c, b)
  {
    ClientBooks(c, a, b, id);
    if !a.chunked {
      ClientContent(c, a, b, id);
      ClientIsolated(c, a, b, id);
    }
  }

  lemma AbortRecord(c: Cfg, s: Sys, id: Id)
    requires id in s.reqs && s.reqs[id].Live() && id in s.clients
    ensures var r := Abort(c, s, id);
            id in r.clients && r.clients[id] == s.clients[id].(frees := r.clients[id].frees) && r.chunked == s.chunked
  {
  }

  /** The state in which the token is appended but its frame is lost, then aborted, is an
      aborted state up to the client's record. */
  lemma UndeliveredSame(c: Cfg, s: Sys, id: Id, row: Vec, token: Token, q: Req, s2: Sys, s3: Sys)
    requires id in s.reqs && id in s.meta && id in s.clients && s.clients.Keys == s.reqs.Keys && q.Live()
    requires Grown(s, id, row, token, q, s3) && s2 == s3.(clients := s.clients)
    ensures var a, b := Abort(c, s3, id), Abort(c, s2, id);
            && SameButClient(a, b, id) && a.chunked == s.chunked && b.clients[id].restarted == s.clients[id].restarted
            && b.clients[id].job == s.clients[id].job && b.clients[id].emitted == s.clients[id].emitted
            && b.clients[id].done == s.clients[id].done
  {
    var emitted := s.clients[id].emitted;
    assert s2 == Unheard(s3, id, emitted);
    UndeliveredAbort(c, s3, s2, id, emitted);
    AbortRecord(c, s3, id);
  }

  lemma ClientSame(c: Cfg, s: Sys, id: Id, cl: Client)
    requires Isolated(c, s) && id in s.clients && !s.clients[id].restarted
    requires cl.job == s.clients[id].job && cl.emitted == s.clients[id].emitted && cl.done == s.clients[id].done
    ensures ClientOk(c, cl)
  {
    assert ClientOk(c, s.clients[id]);
  }

  lemma UndeliveredKeeps(c: Cfg, s: Sys, id: Id, row: Vec, token: Token, s2: Sys, s3: Sys)
    requires Inv(c, s) && id in s.decoding && id in s.reqs && id in s.meta && s.reqs[id].state == Decode && Ready(s, id)
    requires !s.chunked ==> RowIs(c, s, id, row)
    requires token == c.sample(s.meta[id].job.params, s.meta[id].rows + [row])
    requires s.reqs[id].DecodeStep(token).1 == DecodeConfirmed(token)
    requires Grown(s, id, row, token, s.reqs[id].DecodeStep(token).0, s3)
    requires s2 == s3.(clients := s.clients)
    ensures Inv(c, Abort(c, s2, id))
  {
    hide Abort, Reqs, Shape, SingleOk, Owned, Ledger, Content, Grown, RowIs, Ready, Isolated;
    assert Inv(c, s) && Queues(s);
    GrownKeeps(c, s, id, row, token, s3);
    AbortKeeps(c, s3, id);
    UndeliveredSame(c, s, id, row, token, s.reqs[id].DecodeStep(token).0, s2, s3);
    if !s.chunked && !s.clients[id].restarted {
      ClientSame(c, s, id, Abort(c, s2, id).clients[id]);
    }
    ForgetFrame(c, Abort(c, s3, id), Abort(c, s2, id), id);
  }

  // ---- terminal events ---------------------------------------------------------------------------

  ghost function TokenOf(c: Cfg, s: Sys, id: Id, row: Vec): Token
    requires id in s.meta
  {
    c.sample(s.meta[id].job.params, s.meta[id].rows + [row])
  }

  lemma TerminalIs(c: Cfg, s: Sys, id: Id, row: Vec, out: Outcome)
    requires Shape(c, s) && s.clients.Keys == s.reqs.Keys && id in s.reqs && id in s.meta && id in s.segs
    requires s.reqs[id].state == Decode && !out.fault && !s.reqs[id].DecodeStep(TokenOf(c, s, id, row)).1.DecodeConfirmed?
    ensures var f := Finished(s, id, s.reqs[id].DecodeStep(TokenOf(c, s, id, row)).0, s.meta[id].rows + [row]);
            ConfirmOne(c, s, id, row, out) == Forget(RefillRelease(c, f, id, s.meta[id].job.prompt, out), id)
  {
  }

  lemma TerminalGone(c: Cfg, s: Sys, id: Id, row: Vec, out: Outcome)
    requires Shape(c, s) && Owned(c, s) && s.clients.Keys == s.reqs.Keys && id in s.reqs && id in s.meta && id in s.segs
    requires JobOk(c, s.meta[id].job)
    requires s.reqs[id].state == Decode && !out.fault && !s.reqs[id].DecodeStep(TokenOf(c, s, id, row)).1.DecodeConfirmed?
    ensures var q := s.reqs[id].DecodeStep(TokenOf(c, s, id, row)).0;
            var f := Finished(s, id, q, s.meta[id].rows + [row]);
            var t := RefillRelease(c, f, id, s.meta[id].job.prompt, out);
            var r := ConfirmOne(c, s, id, row, out);
            && Gone(c, s, id, q, s.meta[id].rows + [row], AlignedKey(s.meta[id].job.prompt), t, r)
            && Shape(c, r) && Owned(c, r)
  {
    var f := Finished(s, id, s.reqs[id].DecodeStep(TokenOf(c, s, id, row)).0, s.meta[id].rows + [row]);
    RefillReleased(c, f, id, s.meta[id].job.prompt, out);
    TerminalIs(c, s, id, row, out);
  }

  lemma TerminalOther(c: Cfg, s: Sys, id: Id, row: Vec, out: Outcome, o: Id)
    requires Books(c, s) && Owned(c, s) && id in s.decoding && !out.fault
    requires id in s.reqs && id in s.meta && id in s.segs && s.reqs[id].state == Decode && JobOk(c, s.meta[id].job)
    requires !s.reqs[id].DecodeStep(TokenOf(c, s, id, row)).1.DecodeConfirmed?
    requires o in s.decoding && o != id
    ensures Undisturbed(c, s, ConfirmOne(c, s, id, row, out), o)
  {
    hide ConfirmOne, RefillRelease, Owned;
    TerminalGone(c, s, id, row, out);
    var q := s.reqs[id].DecodeStep(TokenOf(c, s, id, row)).0;
    var rows, key := s.meta[id].rows + [row], AlignedKey(s.meta[id].job.prompt);
    var t := RefillRelease(c, Finished(s, id, q, rows), id, s.meta[id].job.prompt, out);
    GoneOther(c, s, id, q, rows, key, t, ConfirmOne(c, s, id, row, out), o);
  }

  lemma TerminalKeeps(c: Cfg, s: Sys, id: Id, row: Vec, out: Outcome)
    requires Inv(c, s) && id in s.decoding && Ready(s, id) && !out.fault
    requires id in s.reqs && id in s.meta && id in s.segs && s.reqs[id].state == Decode
    requires !s.chunked ==> RowIs(c, s, id, row)
    requires !s.reqs[id].DecodeStep(TokenOf(c, s, id, row)).1.DecodeConfirmed?
    ensures Inv(c, ConfirmOne(c, s, id, row, out)) && JobOk(c, s.meta[id].job)
  {
    hide ConfirmOne, RefillRelease, Owned, Content, Isolated, RowIs, Ready, Ledger, SingleOk, Gone;
    assert Inv(c, s) && IdOk(c, s, id);
    TerminalGone(c, s, id, row, out);
    var q := s.reqs[id].DecodeStep(TokenOf(c, s, id, row)).0;
    var rows, key := s.meta[id].rows + [row], AlignedKey(s.meta[id].job.prompt);
    var t := RefillRelease(c, Finished(s, id, q, rows), id, s.meta[id].job.prompt, out);
    GoneKeeps(c, s, id, row, q, key, t, ConfirmOne(c, s, id, row, out));
  }

  /** The rest of the batch is as it was: still decoding, still complete. */
  ghost predicate Undisturbed(c: Cfg, s: Sys, r: Sys, o: Id) {
    && o in r.decoding && (Ready(s, o) ==> Ready(r, o))
    && r.chunked == s.chunked
    && forall row :: RowIs(c, s, o, row) ==> RowIs(c, r, o, row)
  }

  lemma AbortOther(c: Cfg, s: Sys, id: Id, o: Id)
    requires Queues(s) && Reqs(c, s) && id in s.reqs && s.reqs[id].Live() && o in s.decoding && o != id
    ensures Undisturbed(c, s, Abort(c, s, id), o)
  {
    AbortFields(c, s, id);
    DecodingState(c, s, o);
  }

  lemma FaultIs(c: Cfg, s: Sys, id: Id, row: Vec, out: Outcome)
    requires Shape(c, s) && s.clients.Keys == s.reqs.Keys && id in s.meta && id in s.segs
    ensures out.fault && id in s.reqs && s.reqs[id].state == Decode ==> ConfirmOne(c, s, id, row, out) == Abort(c, s, id)
  {
  }

  lemma ConfirmKeeps(c: Cfg, s: Sys, id: Id, row: Vec, out: Outcome)
    requires Inv(c, s) && id in s.decoding && Ready(s, id)
    requires !s.chunked ==> RowIs(c, s, id, row)
    ensures id in s.reqs && id in s.meta && id in s.segs && Inv(c, ConfirmOne(c, s, id, row, out))
    ensures forall o :: o in s.decoding && o != id ==> Undisturbed(c, s, ConfirmOne(c, s, id, row, out), o)
  {
    DecodingState(c, s, id);
    FaultIs(c, s, id, row, out);
    hide ConfirmOne, Abort, Shape, SingleOk, Owned, Ledger, Content, Isolated, RowIs, Ready, Undisturbed;
    if out.fault {
      AbortKeeps(c, s, id);
      forall o | o in s.decoding && o != id
        ensures Undisturbed(c, s, ConfirmOne(c, s, id, row, out), o)
      {
        AbortOther(c, s, id, o);
      }
    } else {
      if s.reqs[id].DecodeStep(TokenOf(c, s, id, row)).1.DecodeConfirmed? {
        ConfirmGrows(c, s, id, row, out);
      } else {
        TerminalKeeps(c, s, id, row, out);
        forall o | o in s.decoding && o != id
          ensures Undisturbed(c, s, ConfirmOne(c, s, id, row, out), o)
        {
          TerminalOther(c, s, id, row, out, o);
        }
      }
    }
  }

  /** The token appended, whether or not its frame arrives. */
  ghost function Append(s: Sys, id: Id, row: Vec, token: Token): (Sys, Sys)
    requires id in s.reqs && id in s.meta && id in s.clients && s.reqs[id].state == Decode
  {
    var e := s.meta[id];
    var s2 := s.(reqs := s.reqs[id := s.reqs[id].DecodeStep(token).0], dispatched := s.dispatched + 1,
                 meta := s.meta[id := e.(rows := e.rows + [row], cur := token, generated := e.generated + [token])]);
    (s2, s2.(clients := s.clients[id := s.clients[id].(emitted := s.clients[id].emitted + [token])]))
  }

  lemma GrowsIs(c: Cfg, s: Sys, id: Id, row: Vec, out: Outcome)
    requires Shape(c, s) && s.clients.Keys == s.reqs.Keys && id in s.reqs && id in s.meta && id in s.segs
    requires s.reqs[id].state == Decode && !out.fault && s.reqs[id].DecodeStep(TokenOf(c, s, id, row)).1.DecodeConfirmed?
    ensures var (s2, s3) := Append(s, id, row, TokenOf(c, s, id, row));
            ConfirmOne(c, s, id, row, out) == if out.delivered then s3 else Abort(c, s2, id)
    ensures s.reqs[id].DecodeStep(TokenOf(c, s, id, row)).1 == DecodeConfirmed(TokenOf(c, s, id, row))
  {
  }

  lemma AppendGrown(s: Sys, id: Id, row: Vec, token: Token)
    requires id in s.reqs && id in s.meta && id in s.clients && s.reqs[id].state == Decode
    ensures var (s2, s3) := Append(s, id, row, token);
            Grown(s, id, row, token, s.reqs[id].DecodeStep(token).0, s3) && s2 == s3.(clients := s.clients)
    ensures s.reqs[id].DecodeStep(token).1.DecodeConfirmed? ==> Append(s, id, row, token).0.reqs[id].Live()
    ensures Append(s, id, row, token).0.clients.Keys == s.clients.Keys && Append(s, id, row, token).0.reqs.Keys == s.reqs.Keys
  {
    var (s2, s3) := Append(s, id, row, token);
    assert s2.reqs.Keys == s.reqs.Keys;
  }

  lemma AppendOther(c: Cfg, s: Sys, id: Id, row: Vec, token: Token, o: Id)
    requires Queues(s) && Reqs(c, s) && id in s.reqs && id in s.meta && s.reqs[id].state == Decode
    requires o in s.decoding && o != id
    ensures Undisturbed(c, s, Append(s, id, row, token).0, o) && Undisturbed(c, s, Append(s, id, row, token).1, o)
  {
    DecodingState(c, s, o);
  }

  lemma AppendAbortOther(c: Cfg, s: Sys, s2: Sys, id: Id, o: Id)
    requires s2.clients.Keys == s2.reqs.Keys && id in s2.reqs && s2.reqs[id].Live() && o != id
    requires Undisturbed(c, s, s2, o)
    ensures Undisturbed(c, s, Abort(c, s2, id), o)
  {
    AbortFields(c, s2, id);
    AbortRecord(c, s2, id);
  }

  lemma ConfirmGrows(c: Cfg, s: Sys, id: Id, row: Vec, out: Outcome)
    requires Inv(c, s) && id in s.decoding && Ready(s, id) && !out.fault
    requires id in s.reqs && id in s.meta && id in s.segs && s.reqs[id].state == Decode
    requires !s.chunked ==> RowIs(c, s, id, row)
    requires s.reqs[id].DecodeStep(TokenOf(c, s, id, row)).1.DecodeConfirmed?
    ensures Inv(c, ConfirmOne(c, s, id, row, out))
    ensures forall o :: o in s.decoding && o != id ==> Undisturbed(c, s, ConfirmOne(c, s, id, row, out), o)
  {
    var token := TokenOf(c, s, id, row);
    GrowsIs(c, s, id, row, out);
    AppendGrown(s, id, row, token);
    hide ConfirmOne, Abort, Shape, SingleOk, Owned, Ledger, Content, Isolated, RowIs, Ready, Undisturbed, Grown, Append;
    var (s2, s3) := Append(s, id, row, token);
    if out.delivered {
      GrownKeeps(c, s, id, row, token, s3);
    } else {
      UndeliveredKeeps(c, s, id, row, token, s2, s3);
    }
    forall o | o in s.decoding && o != id
      ensures Undisturbed(c, s, ConfirmOne(c, s, id, row, out), o)
    {
      AppendOther(c, s, id, row, token, o);
      AppendAbortOther(c, s, s2, id, o);
    }
  }

  // ---- the decode loop -------------------------------------------------------------------------------

  /** What the loop over the batch may rely on for the requests it has not reached yet. */
  ghost predicate Pending(c: Cfg, s: Sys, ids: seq<Id>, rows: seq<Vec>) {
    && |rows| == |ids| && NoDups(ids)
    && forall i :: 0 <= i < |ids| ==>
         && ids[i] in s.decoding && Ready(s, ids[i])
         && (!s.chunked ==> RowIs(c, s, ids[i], rows[i]))
  }

  ghost function ConfirmAll(c: Cfg, s: Sys, ids: seq<Id>, rows: seq<Vec>, outs: Id -> Outcome): Sys
    requires Inv(c, s) && Pending(c, s, ids, rows)
    decreases |ids|
  {
    if ids == [] then s
    else
      ConfirmKeeps(c, s, ids[0], rows[0], outs(ids[0]));
      var s1 := ConfirmOne(c, s, ids[0], rows[0], outs(ids[0]));
      PendingTail(c, s, s1, ids, rows);
      ConfirmAll(c, s1, ids[1..], rows[1..], outs)
  }

  lemma PendingTail(c: Cfg, s: Sys, s1: Sys, ids: seq<Id>, rows: seq<Vec>)
    requires Pending(c, s, ids, rows) && ids != []
    requires forall o :: o in s.decoding && o != ids[0] ==> Undisturbed(c, s, s1, o)
    ensures Pending(c, s1, ids[1..], rows[1..])
  {
    var ids', rows' := ids[1..], rows[1..];
    forall i | 0 <= i < |ids'|
      ensures ids'[i] in s1.decoding && Ready(s1, ids'[i]) && (!s1.chunked ==> RowIs(c, s1, ids'[i], rows'[i]))
    {
      assert ids[i + 1] in s.decoding && ids[i + 1] != ids[0];
      assert Undisturbed(c, s, s1, ids[i + 1]);
    }
  }

  lemma {:induction false} ConfirmAllKeeps(c: Cfg, s: Sys, ids: seq<Id>, rows: seq<Vec>, outs: Id -> Outcome)
    requires Inv(c, s) && Pending(c, s, ids, rows)
    ensures Inv(c, ConfirmAll(c, s, ids, rows, outs))
    decreases |ids|
  {
    if ids != [] {
      ConfirmKeeps(c, s, ids[0], rows[0], outs(ids[0]));
      var s1 := ConfirmOne(c, s, ids[0], rows[0], outs(ids[0]));
      PendingTail(c, s, s1, ids, rows);
      ConfirmAllKeeps(c, s1, ids[1..], rows[1..], outs);
    }
  }

  lemma RanPending(c: Cfg, s: Sys)
    requires Inv(c, s) && s.decoding != []
    ensures Inv(c, Ran(c, s).0) && Pending(c, Ran(c, s).0, Sorted(s.decoding), Ran(c, s).1)
  {
    RanKeeps(c, s);
    SortedSame(s.decoding);
    var (r, rows) := Ran(c, s);
    var ids := Sorted(s.decoding);
    forall i | 0 <= i < |ids|
      ensures ids[i] in r.decoding && Ready(r, ids[i]) && (!r.chunked ==> RowIs(c, r, ids[i], rows[i]))
    {
      assert ids[i] in s.decoding;
    }
  }

  /** One decode step: the batch, then sampling and confirmation in id order. */
  ghost function DecodeStep(c: Cfg, s: Sys, outs: Id -> Outcome): Sys
    requires Inv(c, s)
  {
    if s.decoding == [] then s
    else
      RanPending(c, s);
      ConfirmAll(c, Ran(c, s).0, Sorted(s.decoding), Ran(c, s).1, outs)
  }

  lemma DecodeKeeps(c: Cfg, s: Sys, outs: Id -> Outcome)
    requires Inv(c, s)
    ensures Inv(c, DecodeStep(c, s, outs))
  {
    if s.decoding != [] {
      RanPending(c, s);
      ConfirmAllKeeps(c, Ran(c, s).0, Sorted(s.decoding), Ran(c, s).1, outs);
    }
  }

  // ---- runs --------------------------------------------------------------------------------------------

  /** Commands, and the choices of the admission and selection code.  A scheduling iteration is
      some `Preempted` events, some `Prefilled` events and one `Decoded`; nothing below needs
      them in that order. */
  datatype Event =
    | Submitted(id: Id, job: Job)
    | AbortedBy(id: Id)
    | PreemptedBy(id: Id)
    | Prefilled(a: Assignment)
    | Decoded(outs: Id -> Outcome)

  ghost predicate Enabled(c: Cfg, s: Sys, e: Event) {
    match e
    case Submitted(id, job) => id !in s.reqs && (job.prompt != [] ==> JobOk(c, job))
    case AbortedBy(id) => true
    case PreemptedBy(id) => id in s.decoding
    case Prefilled(a) => AssignmentOk(c, s, a)
    case Decoded(outs) => true
  }

  ghost function Next(c: Cfg, s: Sys, e: Event): Sys
    requires Inv(c, s) && Enabled(c, s, e)
  {
    match e
    case Submitted(id, job) => Submit(c, s, id, job)
    case AbortedBy(id) => Abort(c, s, id)
    case PreemptedBy(id) => PreemptKeeps(c, s, id); PreemptVictim(c, s, id)
    case Prefilled(a) => Assign(c, s, a)
    case Decoded(outs) => DecodeStep(c, s, outs)
  }

  lemma NextKeeps(c: Cfg, s: Sys, e: Event)
    requires Inv(c, s) && Enabled(c, s, e)
    ensures Inv(c, Next(c, s, e))
  {
    match e
    case Submitted(id, job) => SubmitKeeps(c, s, id, job);
    case AbortedBy(id) => AbortKeeps(c, s, id);
    case PreemptedBy(id) => PreemptKeeps(c, s, id);
    case Prefilled(a) => AssignKeeps(c, s, a);
    case Decoded(outs) => DecodeKeeps(c, s, outs);
  }

  /** The loop at start-up, over device memory with arbitrary content: only the anchor is
      taken. */
  ghost predicate Initial(c: Cfg, s: Sys) {
    && ExecOk(c, s.x) && s.x.single == None
    && s.reqs == map[] && s.meta == map[] && s.waiting == [] && s.decoding == [] && s.segs == map[]
    && Cached(s) == map[] && s.dispatched == 0 && s.returned == 0
    && s.arrivals == [] && s.clients == map[] && !s.chunked
    && s.owner == OwnWindow(seq(c.kvPages, _ => Free), AnchorBase(c), c.W(), Anchor)
    && s.x.refs == TakeRefs(seq(c.kvPages, _ => 0), AnchorBase(c), c.W())
  }

  lemma InitialInv(c: Cfg, s: Sys)
    requires Initial(c, s)
    ensures Inv(c, s)
  {
  }

  /** `s` is reachable by `es`: every event was possible when it happened. */
  ghost predicate Reaches(c: Cfg, s0: Sys, es: seq<Event>, s: Sys)
    decreases |es|
  {
    if es == [] then s == s0
    else
      var prior, last := es[..|es| - 1], es[|es| - 1];
      exists p :: Reaches(c, s0, prior, p) && Steps(c, p, last, s)
  }

  ghost predicate Steps(c: Cfg, p: Sys, e: Event, s: Sys) {
    Inv(c, p) && Enabled(c, p, e) && s == Next(c, p, e)
  }

  /** The invariant holds in every state of every run. */
  lemma {:induction false} RunKeeps(c: Cfg, s0: Sys, es: seq<Event>, s: Sys)
    requires Initial(c, s0) && Reaches(c, s0, es, s)
    ensures Inv(c, s)
    decreases |es|
  {
    if es == [] {
      InitialInv(c, s0);
    } else {
      var prior, last := es[..|es| - 1], es[|es| - 1];
      var p :| Reaches(c, s0, prior, p) && Steps(c, p, last, s);
      NextKeeps(c, p, last);
    }
  }

  /** The invariant never cuts a run short: whatever is possible next extends the run. */
  lemma RunExtends(c: Cfg, s0: Sys, es: seq<Event>, s: Sys, e: Event)
    requires Initial(c, s0) && Reaches(c, s0, es, s) && Enabled(c, s, e)
    ensures Inv(c, s) && Reaches(c, s0, es + [e], Next(c, s, e))
  {
    RunKeeps(c, s0, es, s);
    var es' := es + [e];
    assert es'[..|es'| - 1] == es;
    assert Steps(c, s, e, Next(c, s, e));
  }
}
