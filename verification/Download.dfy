/** The concurrent download queue: workers claim indices from one counter, report progress and
    results under locks, and any interleaving of their steps is allowed. */
module Download {
  import opened Requests

  const MAX_WORKERS: nat := 4

  /** What downloading one file comes to. */
  datatype Outcome = Saved(path: string) | Failed(error: string)

  /** Where a worker stands in its loop: about to claim, downloading file `i`, past its progress
      row, or out of the loop. */
  datatype Worker = Idle | Busy(i: nat) | Ended(i: nat) | Stopped

  datatype State = State(
    next: nat,
    workers: seq<Worker>,
    results: seq<Option<Outcome>>,
    peaks: seq<nat>,
    position: nat,
    done: nat,
    // history
    claims: seq<nat>)

  /** One atomic step of worker `w`. */
  datatype Step = Claim(w: nat) | Update(w: nat, bytes: nat) | EndFile(w: nat) | Report(w: nat)

  /** The files to fetch and what each fetch will come to. */
  datatype Plan = Plan(outcomes: seq<Outcome>) {
    function N(): nat {
      |outcomes|
    }

    function Start(): State {
      State(0, seq(if N() < MAX_WORKERS then N() else MAX_WORKERS, _ => Idle), seq(N(), _ => None), seq(N(), _ => 0), 0, 0, [])
    }

    /** A step that is not the worker's next one does nothing. */
    function Do(s: State, e: Step): State {
      if e.w >= |s.workers| then s
      else
        match (e, s.workers[e.w])
        case (Claim(w), Idle) =>
          if s.next < N() then s.(next := s.next + 1, workers := s.workers[w := Busy(s.next)], claims := s.claims + [w])
          else s.(next := s.next + 1, workers := s.workers[w := Worker.Stopped])
        case (Update(w, bytes), Busy(i)) =>
          if i < |s.peaks| then
            var peaks := Peaked(s.peaks, i, bytes);
            s.(peaks := peaks, position := Total(peaks))
          else s
        case (EndFile(w), Busy(i)) =>
          if i < N() then s.(workers := s.workers[w := Ended(i)], done := s.done + (if outcomes[i].Saved? then 1 else 0))
          else s
        case (Report(w), Ended(i)) =>
          if i < N() && i < |s.results| then
            s.(workers := s.workers[w := Idle], results := s.results[i := Some(outcomes[i])])
          else s
        case _ => s
    }

    function After(steps: seq<Step>): State {
      if steps == [] then Start() else Do(After(steps[..|steps| - 1]), steps[|steps| - 1])
    }

    // ---- the invariant of every interleaving -------------------------------------------------------

    /** Index `i` is in the hands of worker `w`. */
    predicate Holds(s: State, w: nat, i: nat) {
      w < |s.workers| && (s.workers[w] == Busy(i) || s.workers[w] == Ended(i))
    }

    /** An index below the counter belongs to the one worker that claimed it, until its result
        is stored; the others are untouched. */
    ghost predicate IndexOk(s: State, i: nat)
      requires |s.results| == N()
    {
      if i < |s.claims| then
        && i < N() && s.claims[i] < |s.workers|
        && (forall w :: Holds(s, w, i) ==> w == s.claims[i])
        && (s.results[i] == None ==> Holds(s, s.claims[i], i))
        && (s.results[i] != None ==> s.results[i] == Some(outcomes[i]) && !Holds(s, s.claims[i], i))
      else
        && (forall w :: !Holds(s, w, i))
        && (i < N() ==> s.results[i] == None)
    }

    ghost predicate Inv(s: State) {
      && |s.results| == |s.peaks| == N()
      && |s.claims| == (if s.next < N() then s.next else N())
      && (forall i {:trigger IndexOk(s, i)} :: 0 <= i ==> IndexOk(s, i))
      && (forall w :: 0 <= w < |s.workers| && s.workers[w].Stopped? ==> s.next > N())
      && s.position == Total(s.peaks)
      && s.done == EndedOk(s, N())
    }

    /** Files that succeeded and whose row has been taken down, among the first `n`. */
    ghost function EndedOk(s: State, n: nat): nat
      requires n <= N() == |s.results|
    {
      if n == 0 then 0
      else EndedOk(s, n - 1) + (if outcomes[n - 1].Saved? && RowDown(s, n - 1) then 1 else 0)
    }

    ghost predicate RowDown(s: State, i: nat)
      requires i < N() == |s.results|
    {
      s.results[i] != None || (i < |s.claims| && s.claims[i] < |s.workers| && s.workers[s.claims[i]] == Ended(i))
    }

    lemma {:induction false} EndedSame(s: State, t: State, n: nat)
      requires n <= N() == |s.results| == |t.results|
      requires forall i :: 0 <= i < n ==> (RowDown(s, i) <==> RowDown(t, i))
      ensures EndedOk(s, n) == EndedOk(t, n)
    {
      if n > 0 {
        EndedSame(s, t, n - 1);
      }
    }

    lemma {:induction false} EndedOne(s: State, t: State, n: nat, k: nat)
      requires k < n <= N() == |s.results| == |t.results|
      requires forall i :: 0 <= i < n && i != k ==> (RowDown(s, i) <==> RowDown(t, i))
      requires !RowDown(s, k) && RowDown(t, k)
      ensures EndedOk(t, n) == EndedOk(s, n) + (if outcomes[k].Saved? then 1 else 0)
    {
      if k == n - 1 {
        EndedSame(s, t, n - 1);
      } else {
        EndedOne(s, t, n - 1, k);
      }
    }

    lemma StartInv()
      ensures Inv(Start())
    {
      ZeroTotal(N());
      assert EndedOk(Start(), N()) == 0 by {
        NothingEnded(N());
      }
    }

    lemma {:induction false} NothingEnded(n: nat)
      requires n <= N()
      ensures EndedOk(Start(), n) == 0
    {
      if n > 0 {
        NothingEnded(n - 1);
      }
    }

    lemma OthersHold(s: State, t: State, w0: nat)
      requires w0 < |s.workers| == |t.workers| && t.workers == s.workers[w0 := t.workers[w0]]
      ensures forall w: nat, i: nat {:trigger Holds(t, w, i)} :: w != w0 ==> (Holds(t, w, i) <==> Holds(s, w, i))
    {
    }

    lemma ClaimKeeps(s: State, w: nat)
      requires Inv(s) && w < |s.workers| && s.workers[w].Idle?
      ensures Inv(Do(s, Claim(w)))
    {
      var t := Do(s, Claim(w));
      OthersHold(s, t, w);
      forall i {:trigger IndexOk(t, i)} | 0 <= i
        ensures IndexOk(t, i)
      {
        assert IndexOk(s, i);
      }
      forall i | 0 <= i < N()
        ensures RowDown(s, i) <==> RowDown(t, i)
      {
        assert IndexOk(s, i);
      }
      EndedSame(s, t, N());
    }

    lemma EndKeeps(s: State, w: nat)
      requires Inv(s) && w < |s.workers| && s.workers[w].Busy?
      ensures Inv(Do(s, EndFile(w)))
    {
      var t, k := Do(s, EndFile(w)), s.workers[w].i;
      assert IndexOk(s, k) && Holds(s, w, k);
      OthersHold(s, t, w);
      forall i {:trigger IndexOk(t, i)} | 0 <= i
        ensures IndexOk(t, i)
      {
        assert IndexOk(s, i) && (i != k ==> !Holds(s, w, i));
      }
      forall i | 0 <= i < N() && i != k
        ensures RowDown(s, i) <==> RowDown(t, i)
      {
        assert IndexOk(s, i);
      }
      EndedOne(s, t, N(), k);
    }

    lemma ReportKeeps(s: State, w: nat)
      requires Inv(s) && w < |s.workers| && s.workers[w].Ended?
      ensures Inv(Do(s, Report(w)))
    {
      var t, k := Do(s, Report(w)), s.workers[w].i;
      assert IndexOk(s, k) && Holds(s, w, k);
      OthersHold(s, t, w);
      forall i {:trigger IndexOk(t, i)} | 0 <= i
        ensures IndexOk(t, i)
      {
        assert IndexOk(s, i);
      }
      forall i | 0 <= i < N()
        ensures RowDown(s, i) <==> RowDown(t, i)
      {
        assert IndexOk(s, i);
      }
      EndedSame(s, t, N());
    }

    lemma UpdateKeeps(s: State, w: nat, bytes: nat)
      requires Inv(s)
      ensures Inv(Do(s, Update(w, bytes)))
    {
      var t := Do(s, Update(w, bytes));
      assert t.workers == s.workers;
      assert forall v: nat, i: nat {:trigger Holds(t, v, i)} :: Holds(t, v, i) <==> Holds(s, v, i);
      forall i {:trigger IndexOk(t, i)} | 0 <= i
        ensures IndexOk(t, i)
      {
        assert IndexOk(s, i);
      }
      forall i | 0 <= i < N()
        ensures RowDown(s, i) <==> RowDown(t, i)
      {
        assert IndexOk(s, i);
      }
      EndedSame(s, t, N());
    }

    lemma DoKeeps(s: State, e: Step)
      requires Inv(s)
      ensures Inv(Do(s, e))
    {
      if e.w < |s.workers| {
        match e
        case Claim(w) =>
          if s.workers[w].Idle? {
            ClaimKeeps(s, w);
          }
        case Update(w, bytes) => UpdateKeeps(s, w, bytes);
        case EndFile(w) =>
          if s.workers[w].Busy? {
            EndKeeps(s, w);
          }
        case Report(w) =>
          if s.workers[w].Ended? {
            ReportKeeps(s, w);
          }
      }
    }

    lemma {:induction false} RunKeeps(steps: seq<Step>)
      ensures Inv(After(steps)) && |After(steps).workers| == (if N() < MAX_WORKERS then N() else MAX_WORKERS)
    {
      if steps == [] {
        StartInv();
      } else {
        RunKeeps(steps[..|steps| - 1]);
        DoKeeps(After(steps[..|steps| - 1]), steps[|steps| - 1]);
      }
    }

    // ---- what the scope's end guarantees -------------------------------------------------------------

    ghost predicate AllStopped(s: State) {
      forall w :: 0 <= w < |s.workers| ==> s.workers[w].Stopped?
    }

    /** When the scope ends, whatever the interleaving was: every index was claimed by exactly
        one worker, every slot holds its own file's outcome, and the counter of completed files
        is the number of successes. */
    lemma AllReported(steps: seq<Step>)
      requires AllStopped(After(steps))
      ensures var s := After(steps);
              && |s.claims| == N()
              && s.results == seq(N(), i requires 0 <= i < N() => Some(outcomes[i]))
              && s.done == Successes(N())
    {
      RunKeeps(steps);
      var s := After(steps);
      if N() > 0 {
        assert s.workers[0].Stopped?;
      }
      forall i | 0 <= i < N()
        ensures s.results[i] == Some(outcomes[i])
      {
        assert IndexOk(s, i);
      }
      AllEnded(s, N());
    }

    function Successes(n: nat): nat
      requires n <= N()
    {
      if n == 0 then 0 else Successes(n - 1) + (if outcomes[n - 1].Saved? then 1 else 0)
    }

    lemma {:induction false} AllEnded(s: State, n: nat)
      requires n <= N() == |s.results| && forall i :: 0 <= i < N() ==> s.results[i] != None
      ensures EndedOk(s, n) == Successes(n)
    {
      if n > 0 {
        AllEnded(s, n - 1);
      }
    }

    /** A claim never changes hands, a stored result never changes, and neither a peak nor the
        global position ever goes back. */
    lemma NothingGoesBack(steps: seq<Step>, e: Step)
      ensures var s, t := After(steps), After(steps + [e]);
              && s.claims <= t.claims && s.done <= t.done && s.position <= t.position
              && (forall i :: 0 <= i < N() ==> i < |s.results| && i < |t.results|
                                               && (s.results[i] != None ==> t.results[i] == s.results[i]))
              && (forall i :: 0 <= i < N() ==> i < |s.peaks| && i < |t.peaks| && s.peaks[i] <= t.peaks[i])
    {
      RunKeeps(steps);
      assert (steps + [e])[..|steps|] == steps;
      var s := After(steps);
      if e.Update? && e.w < |s.workers| && s.workers[e.w].Busy? && s.workers[e.w].i < N() {
        PeakedTotal(s.peaks, s.workers[e.w].i, e.bytes);
      }
      if e.Report? && e.w < |s.workers| && s.workers[e.w].Ended? {
        var i := s.workers[e.w].i;
        assert IndexOk(s, i) && Holds(s, e.w, i);
      }
    }

    /** Step `k` of the run reports bytes of file `i`. */
    ghost predicate Reports(steps: seq<Step>, k: nat, i: nat) {
      && k < |steps| && steps[k].Update?
      && var s := After(steps[..k]);
      && steps[k].w < |s.workers| && s.workers[steps[k].w] == Busy(i)
    }

    /** In every run the peak of a file is the largest of the reports made for it, retries
        included, and 0 before the first. */
    lemma {:induction false} PeakIsLargest(steps: seq<Step>, i: nat)
      requires i < N()
      ensures |After(steps).peaks| == N()
      ensures forall k: nat :: Reports(steps, k, i) ==> steps[k].bytes <= After(steps).peaks[i]
      ensures After(steps).peaks[i] == 0
              || exists k: nat :: Reports(steps, k, i) && steps[k].bytes == After(steps).peaks[i]
    {
      RunKeeps(steps);
      if steps != [] {
        var n := |steps| - 1;
        var before := steps[..n];
        RunKeeps(before);
        PeakIsLargest(before, i);
        forall k: nat | k < n
          ensures Reports(steps, k, i) <==> Reports(before, k, i)
        {
          assert steps[..k] == before[..k];
        }
        if Reports(steps, n, i) && steps[n].bytes > After(before).peaks[i] {
          assert After(steps).peaks[i] == steps[n].bytes;
        } else {
          assert After(steps).peaks[i] == After(before).peaks[i];
        }
      }
    }

    /** The bytes step `e` adds to its file's peak. */
    function Added(s: State, e: Step): nat {
      if e.Update? && e.w < |s.workers| && s.workers[e.w].Busy? then
        var i := s.workers[e.w].i;
        if i < |s.peaks| && e.bytes > s.peaks[i] then e.bytes - s.peaks[i] else 0
      else 0
    }

    /** The position is the sum of the files' peaks in every run, and summing them anew at each
        report moves it by exactly what the report adds to its own file's peak; no other step
        moves it. */
    lemma PositionIsPeaks(steps: seq<Step>, e: Step)
      ensures After(steps).position == Total(After(steps).peaks)
      ensures After(steps + [e]).position == After(steps).position + Added(After(steps), e)
    {
      RunKeeps(steps);
      assert (steps + [e])[..|steps|] == steps;
      var s := After(steps);
      if e.Update? && e.w < |s.workers| && s.workers[e.w].Busy? && s.workers[e.w].i < N() {
        PeakedTotal(s.peaks, s.workers[e.w].i, e.bytes);
      }
    }
  }

  // ---- progress ----------------------------------------------------------------------------------------

  function Peaked(peaks: seq<nat>, i: nat, bytes: nat): (r: seq<nat>)
    requires i < |peaks|
    ensures |r| == |peaks|
  {
    if bytes > peaks[i] then peaks[i := bytes] else peaks
  }

  function Total(peaks: seq<nat>): nat {
    if peaks == [] then 0 else Total(peaks[..|peaks| - 1]) + peaks[|peaks| - 1]
  }

  lemma {:induction false} ZeroTotal(n: nat)
    ensures Total(seq(n, _ => 0)) == 0
  {
    if n > 0 {
      ZeroTotal(n - 1);
      assert seq(n, _ => 0)[..n - 1] == seq(n - 1, _ => 0);
    }
  }

  /** A report moves the sum by exactly what it adds to its file's peak, never down. */
  lemma {:induction false} PeakedTotal(peaks: seq<nat>, i: nat, bytes: nat)
    requires i < |peaks|
    ensures Total(Peaked(peaks, i, bytes)) == Total(peaks) + (if bytes > peaks[i] then bytes - peaks[i] else 0)
    decreases |peaks|
  {
    var n := |peaks| - 1;
    if bytes > peaks[i] {
      if i < n {
        PeakedTotal(peaks[..n], i, bytes);
        assert peaks[i := bytes][..n] == peaks[..n][i := bytes];
      } else {
        assert peaks[i := bytes][..n] == peaks[..n];
      }
    }
  }

  /** The progress display's shared counters; each call holds the lock throughout. */
  class Progress {
    const peaks: array<nat>
    var position: nat

    ghost predicate Valid()
      reads this, peaks
    {
      position == Total(peaks[..])
    }

    constructor (files: nat)
      ensures Valid() && fresh(peaks) && peaks[..] == seq(files, _ => 0)
    {
      peaks := new nat[files](_ => 0);
      position := 0;
      new;
      assert peaks[..] == seq(files, _ => 0);
      ZeroTotal(files);
    }

    method Update(i: nat, bytes: nat)
      requires Valid() && i < peaks.Length
      modifies this, peaks
      ensures Valid() && peaks[..] == Peaked(old(peaks[..]), i, bytes)
      ensures old(position) <= position
    {
      PeakedTotal(peaks[..], i, bytes);
      if bytes > peaks[i] {
        peaks[i] := bytes;
      }
      assert peaks[..] == Peaked(old(peaks[..]), i, bytes);
      var net, k := 0, 0;
      while k < peaks.Length
        invariant k <= peaks.Length && net == Total(peaks[..k])
        invariant peaks[..] == Peaked(old(peaks[..]), i, bytes)
      {
        assert peaks[..k + 1][..k] == peaks[..k];
        net := net + peaks[k];
        k := k + 1;
      }
      assert peaks[..k] == peaks[..];
      position := net;
    }
  }
}
