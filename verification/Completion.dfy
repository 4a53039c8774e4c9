/** Completions and the prefix cache: a completed request is the only one that feeds it, and in
    every reachable state what is cached is the prefix of a prompt whose request completed. */
module Completion {
  import opened Transformer
  import opened PagedKv
  import opened Requests
  import opened SchedState
  import opened ExecSteps
  import opened SchedSteps
  import opened SchedRelease
  import opened SchedDecode
  import opened SchedConfirm
  import opened SchedRuns
  import opened SchedTheorems
  import opened StepBudget
  import opened CacheRefill
  import opened Seats
  import opened Liveness

  // ---- one token ---------------------------------------------------------------------------------------

  /** The request finishes with this row: nothing faults, and the token is not one to go on with. */
  ghost predicate Completes(c: Cfg, s: Sys, id: Id, row: Vec, out: Outcome)
    requires id in s.reqs && id in s.meta && s.reqs[id].state == Decode
  {
    !out.fault && !s.reqs[id].DecodeStep(TokenOf(c, s, id, row)).1.DecodeConfirmed?
  }

  /** What a completion leaves behind, whatever ended the request. */
  lemma CompletionFeeds(c: Cfg, s: Sys, id: Id, row: Vec, out: Outcome)
    requires Inv(c, s) && id in s.decoding
    ensures id in s.reqs && id in s.meta && id in s.segs && s.reqs[id].state == Decode
    ensures Completes(c, s, id, row, out) ==>
              LeftBehind(c, s, id, s.meta[id].job.prompt, out, ConfirmOne(c, s, id, row, out))
    ensures !Completes(c, s, id, row, out) ==> ConfirmOne(c, s, id, row, out).cache == s.cache
  {
    DecodingState(c, s, id);
    assert IdOk(c, s, id);
    hide ConfirmOne, LeftBehind, Reqs, Content, Isolated, OwnedBy, SingleOk, SegsFit, CacheFits, StopMatcher.Tracks, NonEmpty;
    if Completes(c, s, id, row, out) {
      CompletionIs(c, s, id, row, out);
    } else {
      GoesOn(c, s, id, row, out);
    }
  }

  lemma GoesOn(c: Cfg, s: Sys, id: Id, row: Vec, out: Outcome)
    requires Shape(c, s) && s.clients.Keys == s.reqs.Keys && id in s.reqs && id in s.meta && id in s.segs
    requires s.reqs[id].state == Decode && !Completes(c, s, id, row, out)
    ensures ConfirmOne(c, s, id, row, out).cache == s.cache
  {
    FaultIs(c, s, id, row, out);
    if !out.fault {
      GrowsIs(c, s, id, row, out);
    }
    hide ConfirmOne, Shape, Req.DecodeStep;
  }

  lemma CompletionIs(c: Cfg, s: Sys, id: Id, row: Vec, out: Outcome)
    requires Shape(c, s) && Owned(c, s) && s.clients.Keys == s.reqs.Keys && id in s.reqs && id in s.meta && id in s.segs
    requires JobOk(c, s.meta[id].job) && s.reqs[id].state == Decode && Completes(c, s, id, row, out)
    ensures LeftBehind(c, s, id, s.meta[id].job.prompt, out, ConfirmOne(c, s, id, row, out))
  {
    var prompt, r := s.meta[id].job.prompt, ConfirmOne(c, s, id, row, out);
    var f := Finished(s, id, s.reqs[id].DecodeStep(TokenOf(c, s, id, row)).0, s.meta[id].rows + [row]);
    TerminalGone(c, s, id, row, out);
    TerminalIs(c, s, id, row, out);
    ReleaseFeeds(c, f, id, prompt, out);
    hide ConfirmOne, RefillRelease, OwnedBy, Gone, LeftBehind;
    assert Feeds(f, prompt, out) <==> Feeds(s, prompt, out);
    CountsFollow(c, s, id, prompt, out, r);
  }

  // ---- whole runs --------------------------------------------------------------------------------------

  /** The key is the page-aligned prefix, of two blocks at least, of the prompt of a request that
      completed. */
  ghost predicate FromCompleted(s: Sys, k: Key) {
    exists id ::
      && id in s.reqs && id in s.clients && s.reqs[id].state == Done
      && var prompt := s.clients[id].job.prompt; |prompt| / 32 >= 2 && k == prompt[..|prompt| / 32 * 32]
  }

  ghost predicate Sourced(s: Sys) {
    forall k :: k in Cached(s) ==> FromCompleted(s, k)
  }

  lemma StillCompleted(s: Sys, t: Sys, k: Key)
    requires Onward(s, t) && JobsKept(s, t) && FromCompleted(s, k)
    ensures FromCompleted(t, k)
  {
  }

  lemma SourcedKept(s: Sys, t: Sys)
    requires Onward(s, t) && JobsKept(s, t) && Sourced(s) && t.cache == s.cache
    ensures Sourced(t)
  {
    hide Onward, JobsKept, FromCompleted;
    forall k | k in Cached(t)
      ensures FromCompleted(t, k)
    {
      StillCompleted(s, t, k);
    }
  }

  lemma ConfirmOnward(c: Cfg, s: Sys, id: Id, row: Vec, out: Outcome)
    requires Inv(c, s) && id in s.decoding
    ensures id in s.reqs && id in s.meta && id in s.segs
    ensures Onward(s, ConfirmOne(c, s, id, row, out)) && JobsKept(s, ConfirmOne(c, s, id, row, out))
  {
    InvOwned(c, s);
    hide Inv, ConfirmOne, Fades, Onward, Shape, Owned;
    ConfirmFades(c, s, id, row, out);
    FadesOnward(s, ConfirmOne(c, s, id, row, out));
    ConfirmJobs(c, s, id, row, out);
    hide JobsKept;
  }

  lemma ConfirmJobs(c: Cfg, s: Sys, id: Id, row: Vec, out: Outcome)
    requires Inv(c, s) && id in s.decoding
    ensures id in s.reqs && id in s.meta && id in s.segs && Shape(c, s) && s.clients.Keys == s.reqs.Keys
    ensures JobsKept(s, ConfirmOne(c, s, id, row, out))
  {
    InvOwned(c, s);
    hide Inv, ConfirmOne, Shape, Owned;
    ConfirmMoves(c, s, id, row, out);
    var r := ConfirmOne(c, s, id, row, out);
    forall o | o in s.clients
      ensures o in r.clients && r.clients[o].job == s.clients[o].job
    {
      assert o != id ==> Spared(s, r, o);
    }
  }

  /** A completed request is done, and its client is the one it was submitted for. */
  lemma CompletionDone(c: Cfg, s: Sys, id: Id, row: Vec, out: Outcome)
    requires Inv(c, s) && id in s.decoding
    ensures id in s.reqs && id in s.meta && id in s.segs && s.reqs[id].state == Decode
    ensures id in s.clients && s.clients[id].job == s.meta[id].job && JobOk(c, s.meta[id].job)
    ensures Completes(c, s, id, row, out) ==>
              id in ConfirmOne(c, s, id, row, out).reqs && ConfirmOne(c, s, id, row, out).reqs[id].state == Done
  {
    DecodingState(c, s, id);
    InvOwned(c, s);
    assert IdOk(c, s, id);
    hide Inv, IdOk, ConfirmOne, Shape, Owned, Completes, Gone;
    if Completes(c, s, id, row, out) {
      CompletedState(c, s, id, row, out);
    }
  }

  lemma CompletedState(c: Cfg, s: Sys, id: Id, row: Vec, out: Outcome)
    requires Shape(c, s) && Owned(c, s) && s.clients.Keys == s.reqs.Keys && id in s.reqs && id in s.meta && id in s.segs
    requires JobOk(c, s.meta[id].job) && s.reqs[id].state == Decode && Completes(c, s, id, row, out)
    ensures id in ConfirmOne(c, s, id, row, out).reqs && ConfirmOne(c, s, id, row, out).reqs[id].state == Done
  {
    TerminalGone(c, s, id, row, out);
    hide ConfirmOne, RefillRelease, Shape, OwnedBy, TakeAndFlushStore, AllFree, StopMatcher.Push;
  }

  lemma ConfirmSourced(c: Cfg, s: Sys, id: Id, row: Vec, out: Outcome)
    requires Inv(c, s) && id in s.decoding && Sourced(s)
    ensures id in s.reqs && id in s.meta && id in s.segs && Sourced(ConfirmOne(c, s, id, row, out))
  {
    CompletionDone(c, s, id, row, out);
    CompletionFeeds(c, s, id, row, out);
    ConfirmOnward(c, s, id, row, out);
    hide Inv, ConfirmOne, Onward, Completes, Counted, Dropped;
    var r := ConfirmOne(c, s, id, row, out);
    if r.cache == s.cache {
      SourcedKept(s, r);
    } else {
      var prompt := s.meta[id].job.prompt;
      forall k | k in Cached(r)
        ensures FromCompleted(r, k)
      {
        if k == prompt[..|prompt| / 32 * 32] {
          assert r.clients[id].job.prompt == prompt;
        } else {
          StillCompleted(s, r, k);
        }
      }
    }
  }

  lemma {:induction false} ConfirmAllSourced(c: Cfg, s: Sys, ids: seq<Id>, rows: seq<Vec>, outs: Id -> Outcome)
    requires Inv(c, s) && Pending(c, s, ids, rows) && Sourced(s)
    ensures Sourced(ConfirmAll(c, s, ids, rows, outs))
    decreases |ids|
  {
    if ids != [] {
      ConfirmKeeps(c, s, ids[0], rows[0], outs(ids[0]));
      ConfirmSourced(c, s, ids[0], rows[0], outs(ids[0]));
      var s1 := ConfirmOne(c, s, ids[0], rows[0], outs(ids[0]));
      PendingTail(c, s, s1, ids, rows);
      hide ConfirmOne, Inv, Pending, Sourced;
      ConfirmAllSourced(c, s1, ids[1..], rows[1..], outs);
    }
  }

  lemma ReorderedSourced(s: Sys, r: Sys)
    requires Sourced(s) && r == s.(x := r.x, decoding := r.decoding)
    ensures Sourced(r)
  {
    SourcedKept(s, r);
  }

  lemma DecodeSourced(c: Cfg, s: Sys, outs: Id -> Outcome)
    requires Inv(c, s) && Sourced(s)
    ensures Sourced(SchedRuns.DecodeStep(c, s, outs))
  {
    if s.decoding != [] {
      RanPending(c, s);
      RanIs(c, s);
      hide Inv, Pending, ConfirmAll, Ran, Sorted, Sourced;
      var r := Ran(c, s).0;
      ReorderedSourced(s, r);
      ConfirmAllSourced(c, r, Sorted(s.decoding), Ran(c, s).1, outs);
    }
  }

  /** Only a decode step changes the cache. */
  lemma OnlyDecodesFeed(c: Cfg, s: Sys, e: Event)
    requires Inv(c, s) && Enabled(c, s, e) && !e.Decoded?
    ensures Next(c, s, e).cache == s.cache && JobsKept(s, Next(c, s, e))
  {
    match e
    case Submitted(id, job) =>
      KeysMatch(c, s);
    case AbortedBy(id) =>
      AbortCache(c, s, id);
    case PreemptedBy(id) =>
      DecodingState(c, s, id);
      PreemptCache(c, s, id);
    case Prefilled(a) =>
      AssignJoins(c, s, a);
      hide Assign, AssignmentOk, Inv;
  }

  lemma AbortIdle(c: Cfg, s: Sys, id: Id)
    requires id !in s.reqs || !s.reqs[id].Live()
    ensures Abort(c, s, id) == s
  {
  }

  lemma AbortCache(c: Cfg, s: Sys, id: Id)
    requires Inv(c, s)
    ensures Abort(c, s, id).cache == s.cache && JobsKept(s, Abort(c, s, id))
  {
    KeysMatch(c, s);
    hide Inv, Abort;
    if id in s.reqs && s.reqs[id].Live() {
      AbortRelease(c, s, id);
    } else {
      AbortIdle(c, s, id);
    }
  }

  lemma AbortRelease(c: Cfg, s: Sys, id: Id)
    requires s.clients.Keys == s.reqs.Keys && id in s.reqs && s.reqs[id].Live()
    ensures Abort(c, s, id).cache == s.cache && JobsKept(s, Abort(c, s, id))
  {
    AbortFields(c, s, id);
    hide Abort, Without, DropSingle, OwnWindow, DropRefs;
  }

  lemma PreemptCache(c: Cfg, s: Sys, id: Id)
    requires id in s.reqs && s.reqs[id].state == Decode
    ensures PreemptVictim(c, s, id).cache == s.cache && JobsKept(s, PreemptVictim(c, s, id))
  {
    hide DropRefs, OwnWindow;
  }

  lemma StepSourced(c: Cfg, s: Sys, e: Event)
    requires Inv(c, s) && Enabled(c, s, e) && Sourced(s)
    ensures Sourced(Next(c, s, e))
  {
    if e.Decoded? {
      DecodeSourced(c, s, e.outs);
    } else {
      hide Inv, Enabled, Onward, JobsKept, Sourced;
      NextOnward(c, s, e);
      OnlyDecodesFeed(c, s, e);
      hide Next;
      SourcedKept(s, Next(c, s, e));
    }
  }

  /** In every state of every run that began with an empty cache, whatever is cached is the
      prefix of a prompt whose request completed: aborted, preempted or live requests never put
      anything there. */
  lemma {:induction false} RunSourced(c: Cfg, s0: Sys, es: seq<Event>, s: Sys)
    requires Initial(c, s0) && Reaches(c, s0, es, s)
    ensures Sourced(s)
    decreases |es|
  {
    hide Inv, Next, Enabled, FromCompleted;
    if es != [] {
      var prior, last := es[..|es| - 1], es[|es| - 1];
      var p :| Reaches(c, s0, prior, p) && Steps(c, p, last, s);
      RunSourced(c, s0, prior, p);
      StepSourced(c, p, last);
    }
  }
}
