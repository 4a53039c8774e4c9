/** Who comes first: whom a selection preempts and whom it feeds, stated on the requests
    themselves, and the order of the decode batch. */
module Priorities {
  import opened SchedState
  import opened SchedSteps
  import opened Requests
  import SchedRelease
  import opened SchedDecode
  import opened SchedRuns
  import opened StepBudget
  import opened Selection
  import opened Admission

  // ---- ids in ascending order ------------------------------------------------------------------------

  ghost predicate Ascending(q: seq<Id>) {
    forall i, j :: 0 <= i < j < |q| ==> q[i] <= q[j]
  }

  lemma {:induction false} InsertAscends(q: seq<Id>, id: Id)
    requires Ascending(q)
    ensures Ascending(Insert(q, id))
  {
    if q != [] && q[|q| - 1] > id {
      var rest, last := q[..|q| - 1], q[|q| - 1];
      InsertAscends(rest, id);
      var r := Insert(rest, id);
      forall i | 0 <= i < |r|
        ensures r[i] <= last
      {
        assert r[i] in multiset(r);
        if r[i] != id {
          assert r[i] in multiset(rest);
        }
      }
    }
  }

  lemma {:induction false} SortedAscends(q: seq<Id>)
    ensures Ascending(Sorted(q))
  {
    if q != [] {
      SortedAscends(q[..|q| - 1]);
      InsertAscends(Sorted(q[..|q| - 1]), q[|q| - 1]);
    }
  }

  /** A decode step runs every decoding request, each once, in ascending order of the ids. */
  lemma BatchAscends(c: Cfg, s: Sys)
    requires Books(c, s) && s.decoding != []
    ensures Ascending(Ran(c, s).0.decoding) && multiset(Ran(c, s).0.decoding) == multiset(s.decoding)
  {
    RanIs(c, s);
    SortedAscends(s.decoding);
    hide Ran, Books, Ascending;
  }

  // ---- victims -------------------------------------------------------------------------------------------

  /** `v` may be preempted while `k` keeps its place: a resumed request only if `k` is one too,
      and among equals the one that arrived later. */
  predicate Yields(v: DecodingReq, k: DecodingReq) {
    (v.resume ==> k.resume) && (v.resume == k.resume ==> v.arrival >= k.arrival)
  }

  ghost predicate DistinctDecoding(ds: seq<DecodingReq>) {
    forall i, j :: 0 <= i < j < |ds| ==> ds[i].id != ds[j].id
  }

  lemma RankYields(victims: seq<DecodingReq>)
    requires Ordered(victims, VictimRank)
    ensures forall i, j :: 0 <= i < j < |victims| ==> Yields(victims[i], victims[j])
  {
    forall i, j | 0 <= i < j < |victims|
      ensures Yields(victims[i], victims[j])
    {
      assert Before(VictimRank(victims[i]), VictimRank(victims[j]));
    }
  }

  /** The request of that id is the one the arrangement has there. */
  lemma FindAt(decoding: seq<DecodingReq>, victims: seq<DecodingReq>, i: nat, d: DecodingReq)
    requires DistinctDecoding(decoding) && d in decoding && multiset(victims) == multiset(decoding)
    requires i < |victims| && victims[i].id == d.id
    ensures victims[i] == d
  {
    assert victims[i] in multiset(victims);
    assert victims[i] in multiset(decoding);
  }

  lemma IndexYields(decoding: seq<DecodingReq>, victims: seq<DecodingReq>, i: nat, j: nat, v: DecodingReq, k: DecodingReq)
    requires DistinctDecoding(decoding) && v in decoding && k in decoding && multiset(victims) == multiset(decoding)
    requires Ordered(victims, VictimRank) && i < j < |victims| && victims[i].id == v.id && victims[j].id == k.id
    ensures Yields(v, k)
  {
    hide Yields, Ordered, VictimRank, DistinctDecoding;
    FindAt(decoding, victims, i, v);
    FindAt(decoding, victims, j, k);
    RankYields(victims);
  }

  lemma PreemptedAre(waiting: seq<WaitingReq>, decoding: seq<DecodingReq>, budget: nat, floor: nat)
    ensures var sel, victims := Select(waiting, decoding, budget, floor), SortBy(decoding, VictimRank);
            && |sel.preempted| <= |victims|
            && (forall i :: 0 <= i < |sel.preempted| ==> sel.preempted[i] == victims[i].id)
            && forall id :: id in sel.decode ==> exists j :: |sel.preempted| <= j < |victims| && victims[j].id == id
  {
    hide SortBy, VictimRank, Sorted, Slices, Left, WaitingRank;
    var sel, victims := Select(waiting, decoding, budget, floor), SortBy(decoding, VictimRank);
    var split := |sel.preempted|;
    assert sel.preempted == IdsOf(victims[..split]) && sel.decode == Sorted(IdsOf(victims[split..]));
    forall id | id in sel.decode
      ensures exists j :: split <= j < |victims| && victims[j].id == id
    {
      assert id in multiset(sel.decode);
      assert id in IdsOf(victims[split..]);
      var j :| 0 <= j < |victims| - split && IdsOf(victims[split..])[j] == id;
      assert victims[split + j].id == id;
    }
  }

  /** Every victim yields to every request that keeps its place. */
  lemma VictimsYield(waiting: seq<WaitingReq>, decoding: seq<DecodingReq>, budget: nat, floor: nat, v: DecodingReq, k: DecodingReq)
    requires DistinctDecoding(decoding) && v in decoding && k in decoding
    ensures var sel := Select(waiting, decoding, budget, floor);
            v.id in sel.preempted && k.id in sel.decode ==> Yields(v, k)
  {
    PreemptedAre(waiting, decoding, budget, floor);
    SortOrdered(decoding, VictimRank);
    hide SortBy, Select, VictimRank, Ordered, Yields, DistinctDecoding;
    var sel, victims := Select(waiting, decoding, budget, floor), SortBy(decoding, VictimRank);
    if v.id in sel.preempted && k.id in sel.decode {
      var i :| 0 <= i < |sel.preempted| && sel.preempted[i] == v.id;
      var j :| |sel.preempted| <= j < |victims| && victims[j].id == k.id;
      IndexYields(decoding, victims, i, j, v, k);
    }
  }

  /** Victims are preempted in that order too, so that the last one comes first in the queue. */
  lemma VictimOrder(waiting: seq<WaitingReq>, decoding: seq<DecodingReq>, budget: nat, floor: nat, v: DecodingReq, k: DecodingReq,
                    i: nat, j: nat)
    requires DistinctDecoding(decoding) && v in decoding && k in decoding
    requires var sel := Select(waiting, decoding, budget, floor);
             i < j < |sel.preempted| && sel.preempted[i] == v.id && sel.preempted[j] == k.id
    ensures Yields(v, k)
  {
    PreemptedAre(waiting, decoding, budget, floor);
    SortOrdered(decoding, VictimRank);
    hide SortBy, Select, VictimRank, Ordered, Yields, DistinctDecoding;
    IndexYields(decoding, SortBy(decoding, VictimRank), i, j, v, k);
  }

  // ---- waiting requests --------------------------------------------------------------------------------------

  /** `a` is served before `b`: it was preempted before and `b` was not, or it is older. */
  predicate Ahead(a: WaitingReq, b: WaitingReq) {
    (a.resume && !b.resume) || (a.resume == b.resume && a.arrival < b.arrival)
  }

  /** The slices hold all that `w` can use in a step: the rest of its prompt, up to its chunk
      limit. */
  predicate HasWish(w: WaitingReq, ss: seq<Slice>) {
    var need := if w.promptLen > w.cached then w.promptLen - w.cached else 0;
    var wish := if need < w.maxChunk then need else w.maxChunk;
    wish == 0 || Slice(w.id, w.cached, w.cached + wish) in ss
  }

  predicate GetsSlice(w: WaitingReq, ss: seq<Slice>) {
    exists s :: s in ss && s.id == w.id
  }

  lemma {:induction false} FedInOrder(ws: seq<WaitingReq>, left: nat, i: nat, j: nat)
    requires DistinctIds(ws) && i < j < |ws| && GetsSlice(ws[j], Slices(ws, left))
    ensures HasWish(ws[i], Slices(ws, left))
    decreases i
  {
    var w, rest := ws[0], ws[1..];
    var n := Min(w.Want(), left);
    var ss := Slices(rest, left - n);
    assert rest[j - 1] == ws[j] && ws[j].id != w.id;
    assert GetsSlice(rest[j - 1], ss) by {
      var s :| s in Slices(ws, left) && s.id == ws[j].id;
      assert s in ss;
    }
    if i == 0 {
      if n < w.Want() {
        NoSlices(rest);
      }
    } else {
      FedInOrder(rest, left - n, i - 1, j - 1);
    }
  }

  lemma OrderedAhead(ws: seq<WaitingReq>, w: WaitingReq, u: WaitingReq) returns (i: nat, j: nat)
    requires Ordered(ws, WaitingRank) && w in ws && u in ws && Ahead(w, u)
    ensures i < j < |ws| && ws[i] == w && ws[j] == u
  {
    i :| 0 <= i < |ws| && ws[i] == w;
    j :| 0 <= j < |ws| && ws[j] == u;
    assert !Before(WaitingRank(u), WaitingRank(w));
  }

  /** Nobody is fed before a request ahead of it has all it can use. */
  lemma AheadIsFed(waiting: seq<WaitingReq>, decoding: seq<DecodingReq>, budget: nat, floor: nat, w: WaitingReq, u: WaitingReq)
    requires DistinctIds(waiting) && w in waiting && u in waiting && Ahead(w, u)
    ensures var ss := Select(waiting, decoding, budget, floor).prefill;
            GetsSlice(u, ss) ==> HasWish(w, ss)
  {
    hide SortBy, VictimRank, Ordered, Sorted, WaitingRank, IdsOf, Left, DistinctIds, Slices, Ahead, HasWish, GetsSlice;
    var ws, left := SortBy(waiting, WaitingRank), Effective(budget, floor) - Min(|decoding|, Effective(budget, floor));
    SortOrdered(waiting, WaitingRank);
    DistinctSorted(waiting, ws);
    assert w in multiset(waiting) && u in multiset(waiting);
    assert w in ws && u in ws;
    if GetsSlice(u, Slices(ws, left)) {
      var i, j := OrderedAhead(ws, w, u);
      FedInOrder(ws, left, i, j);
    }
  }

  lemma {:induction false} LeftHasNone(ws: seq<WaitingReq>, left: nat, w: WaitingReq)
    requires DistinctIds(ws) && w in ws
    ensures w.id in Left(ws, left) <==> !GetsSlice(w, Slices(ws, left))
  {
    var v, rest := ws[0], ws[1..];
    var n := Min(v.Want(), left);
    var ss := Slices(rest, left - n);
    if w == v {
      assert !GetsSlice(w, ss) by {
        if s :| s in ss && s.id == w.id {
          TailIds(ws, left - n, s);
        }
      }
      LeftIds(rest, left - n);
      if w.id in Left(rest, left - n) {
        var u :| u in rest && u.id == w.id;
        LaterId(ws, u);
      }
      if n > 0 {
        assert Slice(w.id, w.cached, w.cached + n) in Slices(ws, left);
      }
    } else {
      assert w in rest;
      LaterId(ws, w);
      LeftHasNone(rest, left - n, w);
      assert GetsSlice(w, Slices(ws, left)) <==> GetsSlice(w, ss) by {
        if s :| s in Slices(ws, left) && s.id == w.id {
          assert s in ss;
        }
      }
    }
  }

  lemma {:induction false} LeftIds(ws: seq<WaitingReq>, left: nat)
    ensures forall id :: id in Left(ws, left) ==> exists u :: u in ws && u.id == id
  {
    if ws != [] {
      var n := Min(ws[0].Want(), left);
      LeftIds(ws[1..], left - n);
      forall id | id in Left(ws, left)
        ensures exists u :: u in ws && u.id == id
      {
        if id in Left(ws[1..], left - n) {
          var u :| u in ws[1..] && u.id == id;
          assert u in ws;
        } else {
          assert ws[0] in ws && ws[0].id == id;
        }
      }
    }
  }

  /** Exactly the requests without a slice are kept waiting. */
  lemma KeptHasNone(waiting: seq<WaitingReq>, decoding: seq<DecodingReq>, budget: nat, floor: nat, w: WaitingReq)
    requires DistinctIds(waiting) && w in waiting
    ensures var sel := Select(waiting, decoding, budget, floor);
            w.id in sel.keptWaiting <==> !GetsSlice(w, sel.prefill)
  {
    hide SortBy, VictimRank, Sorted, WaitingRank, IdsOf, Left, DistinctIds, Slices, GetsSlice;
    var ws, left := SortBy(waiting, WaitingRank), Effective(budget, floor) - Min(|decoding|, Effective(budget, floor));
    DistinctSorted(waiting, ws);
    assert w in multiset(waiting);
    assert w in ws;
    LeftHasNone(ws, left, w);
  }

  // ---- in the served loop ------------------------------------------------------------------------------------

  lemma {:induction false} IndexAt(q: seq<Id>, i: nat)
    requires NoDups(q) && i < |q|
    ensures IndexIn(q, q[i]) == i
  {
    if i > 0 {
      assert q[1..][i - 1] == q[i];
      IndexAt(q[1..], i - 1);
    }
  }

  lemma DecodingDistinct(c: Cfg, s: Sys)
    requires Inv(c, s)
    ensures DistinctDecoding(DecodingViews(s)) && NoDups(s.arrivals) && forall id :: id in s.decoding ==> id in s.arrivals
  {
    forall id | id in s.decoding
      ensures id in s.arrivals
    {
      SchedRelease.DecodingState(c, s, id);
    }
  }

  lemma DecodingViewIn(s: Sys, i: nat)
    requires NoDups(s.arrivals) && i < |s.arrivals| && s.arrivals[i] in s.decoding
    ensures DecodingReq(s.arrivals[i], i, false) in DecodingViews(s)
  {
    IndexAt(s.arrivals, i);
    var k :| 0 <= k < |s.decoding| && s.decoding[k] == s.arrivals[i];
    assert DecodingViews(s)[k] == DecodingReq(s.arrivals[i], i, false);
  }

  /** A step preempts the newest: whoever keeps its place was submitted before every victim. */
  lemma NewestGoFirst(c: Cfg, s: Sys, ids: seq<Id>, chunk: nat, v: nat, k: nat)
    requires Inv(c, s) && Shown(s, ids) && v < |s.arrivals| && k < |s.arrivals|
    requires s.arrivals[v] in s.decoding && s.arrivals[k] in s.decoding
    requires var sel := Selected(c, s, ids, chunk); s.arrivals[v] in sel.preempted && s.arrivals[k] in sel.decode
    ensures k <= v
  {
    DecodingDistinct(c, s);
    hide Inv, Shown, Select, DecodingViews, WaitingViews, Budget, DistinctDecoding;
    DecodingViewIn(s, v);
    DecodingViewIn(s, k);
    VictimsYield(WaitingViews(s, ids, chunk), DecodingViews(s), Budget(c, s), 0,
                 DecodingReq(s.arrivals[v], v, false), DecodingReq(s.arrivals[k], k, false));
  }

  lemma WaitingViewIn(c: Cfg, s: Sys, ids: seq<Id>, chunk: nat, i: nat)
    requires Inv(c, s) && Shown(s, ids) && i < |s.arrivals| && s.arrivals[i] in ids
    ensures s.arrivals[i] in s.reqs && s.arrivals[i] in s.meta && s.arrivals[i] in s.waiting
    ensures WaitingView(s, s.arrivals[i], chunk) in WaitingViews(s, ids, chunk)
    ensures var r, w := s.reqs[s.arrivals[i]], WaitingView(s, s.arrivals[i], chunk);
            && w.id == s.arrivals[i] && w.arrival == i && w.resume == (r.state == Preempted)
            && w.cached == r.cached < w.promptLen == |s.meta[s.arrivals[i]].job.prompt| && w.maxChunk == chunk
  {
    IndexAt(s.arrivals, i);
    var k :| 0 <= k < |ids| && ids[k] == s.arrivals[i];
    assert WaitingViews(s, ids, chunk)[k] == WaitingView(s, s.arrivals[i], chunk);
    WantIs(c, s, s.arrivals[i], chunk);
    assert IdOk(c, s, s.arrivals[i]);
  }

  lemma IsAhead(a: WaitingReq, b: WaitingReq)
    ensures (a.resume && !b.resume) || (a.resume == b.resume && a.arrival < b.arrival) ==> Ahead(a, b)
  {
  }

  lemma Gets(w: WaitingReq, ss: seq<Slice>, s: Slice)
    requires s in ss && s.id == w.id
    ensures GetsSlice(w, ss)
  {
  }

  /** A step feeds preempted requests first and then the oldest: when it gives `u` a slice, a request
      ahead of `u` has one that ends with its prompt or is as long as the chunk limit. */
  lemma OldestFirst(c: Cfg, s: Sys, ids: seq<Id>, chunk: nat, w: nat, u: nat, sl: Slice)
    requires Inv(c, s) && Shown(s, ids) && NoDups(ids) && chunk > 0 && w < |s.arrivals| && u < |s.arrivals|
    requires s.arrivals[w] in ids && s.arrivals[u] in ids && s.arrivals[w] in s.reqs && s.arrivals[u] in s.reqs
    requires (s.reqs[s.arrivals[w]].state == Preempted && s.reqs[s.arrivals[u]].state != Preempted)
             || ((s.reqs[s.arrivals[w]].state == Preempted <==> s.reqs[s.arrivals[u]].state == Preempted) && w < u)
    requires sl in Selected(c, s, ids, chunk).prefill && sl.id == s.arrivals[u]
    ensures s.arrivals[w] in s.meta
    ensures var n, from := |s.meta[s.arrivals[w]].job.prompt|, s.reqs[s.arrivals[w]].cached;
            Slice(s.arrivals[w], from, if n < from + chunk then n else from + chunk) in Selected(c, s, ids, chunk).prefill
  {
    hide Inv, Select, Viewed, DecodingView, DecodingViews, Usage, PoolTokens, IndexIn, DistinctIds, NoDups, Ahead, GetsSlice;
    WaitingViewIn(c, s, ids, chunk, w);
    WaitingViewIn(c, s, ids, chunk, u);
    ViewsDistinct(s, ids, chunk);
    var a, b := WaitingView(s, s.arrivals[w], chunk), WaitingView(s, s.arrivals[u], chunk);
    IsAhead(a, b);
    Gets(b, Selected(c, s, ids, chunk).prefill, sl);
    AheadIsFed(WaitingViews(s, ids, chunk), DecodingViews(s), Budget(c, s), 0, a, b);
  }
}
