/** Batch selection: which decoding requests keep their place, which are preempted, and which
    slices of the waiting prompts are prefilled, all out of one token budget. */
module Selection {
  import opened SchedState
  import opened SchedSteps

  datatype WaitingReq = WaitingReq(id: Id, arrival: nat, resume: bool, promptLen: nat, cached: nat, maxChunk: nat) {
    /** What the request would get from an unlimited budget. */
    function Want(): nat {
      var need := if promptLen > cached then promptLen - cached else 0;
      if need < maxChunk then need else maxChunk
    }
  }

  datatype DecodingReq = DecodingReq(id: Id, arrival: nat, resume: bool)
  datatype Slice = Slice(id: Id, start: nat, end: nat)
  datatype Batch = Batch(decode: seq<Id>, prefill: seq<Slice>, preempted: seq<Id>, keptWaiting: seq<Id>)

  // ---- orderings ---------------------------------------------------------------------------------

  type Rank = (nat, int)

  predicate Before(a: Rank, b: Rank) {
    a.0 < b.0 || (a.0 == b.0 && a.1 <= b.1)
  }

  /** Resumed requests first, then by arrival. */
  function WaitingRank(w: WaitingReq): Rank {
    (if w.resume then 0 else 1, w.arrival)
  }

  /** Newest arrivals first, resumed requests last. */
  function VictimRank(d: DecodingReq): Rank {
    (if d.resume then 1 else 0, -(d.arrival as int))
  }

  ghost predicate Ordered<T(!new)>(q: seq<T>, rank: T -> Rank) {
    forall i, j :: 0 <= i < j < |q| ==> Before(rank(q[i]), rank(q[j]))
  }

  function InsertBy<T>(q: seq<T>, x: T, rank: T -> Rank): (r: seq<T>)
    ensures |r| == |q| + 1
    ensures multiset(r) == multiset(q) + multiset{x}
  {
    if q == [] then [x]
    else
      assert q == q[..|q| - 1] + [q[|q| - 1]];
      if Before(rank(q[|q| - 1]), rank(x)) then q + [x]
      else InsertBy(q[..|q| - 1], x, rank) + [q[|q| - 1]]
  }

  /** A stable sort by rank. */
  function SortBy<T>(q: seq<T>, rank: T -> Rank): (r: seq<T>)
    ensures |r| == |q|
    ensures multiset(r) == multiset(q)
  {
    if q == [] then []
    else
      assert q == q[..|q| - 1] + [q[|q| - 1]];
      InsertBy(SortBy(q[..|q| - 1], rank), q[|q| - 1], rank)
  }

  lemma {:induction false} InsertOrdered<T(!new)>(q: seq<T>, x: T, rank: T -> Rank)
    requires Ordered(q, rank)
    ensures Ordered(InsertBy(q, x, rank), rank)
  {
    if q != [] && !Before(rank(q[|q| - 1]), rank(x)) {
      var rest, last := q[..|q| - 1], q[|q| - 1];
      InsertOrdered(rest, x, rank);
      var r := InsertBy(rest, x, rank);
      forall i | 0 <= i < |r|
        ensures Before(rank(r[i]), rank(last))
      {
        assert r[i] in multiset(r);
        if r[i] != x {
          assert r[i] in multiset(rest);
          var j :| 0 <= j < |rest| && rest[j] == r[i];
          assert Before(rank(q[j]), rank(q[|q| - 1]));
        }
      }
    }
  }

  lemma {:induction false} SortOrdered<T(!new)>(q: seq<T>, rank: T -> Rank)
    ensures Ordered(SortBy(q, rank), rank)
  {
    if q != [] {
      SortOrdered(q[..|q| - 1], rank);
      InsertOrdered(SortBy(q[..|q| - 1], rank), q[|q| - 1], rank);
    }
  }

  // ---- the selection -----------------------------------------------------------------------------

  function IdsOf(ds: seq<DecodingReq>): (r: seq<Id>)
    ensures |r| == |ds|
  {
    seq(|ds|, i requires 0 <= i < |ds| => ds[i].id)
  }

  /** Feed the waiting requests in order, each its wish or what is left. */
  function Slices(ws: seq<WaitingReq>, remaining: nat): (r: seq<Slice>) {
    if ws == [] then []
    else
      var w := ws[0];
      var n := if w.Want() < remaining then w.Want() else remaining;
      if n == 0 then Slices(ws[1..], remaining)
      else [Slice(w.id, w.cached, w.cached + n)] + Slices(ws[1..], remaining - n)
  }

  function Left(ws: seq<WaitingReq>, remaining: nat): seq<Id> {
    if ws == [] then []
    else
      var w := ws[0];
      var n := if w.Want() < remaining then w.Want() else remaining;
      if n == 0 then [w.id] + Left(ws[1..], remaining) else Left(ws[1..], remaining - n)
  }

  function Min(a: nat, b: nat): nat {
    if a < b then a else b
  }

  function Effective(budget: nat, floor: nat): nat {
    if budget > floor then budget - floor else 0
  }

  function Select(waiting: seq<WaitingReq>, decoding: seq<DecodingReq>, budget: nat, floor: nat): Batch {
    var eff := Effective(budget, floor);
    var keep := Min(|decoding|, eff);
    var victims := SortBy(decoding, VictimRank);
    var ws := SortBy(waiting, WaitingRank);
    Batch(Sorted(IdsOf(victims[|decoding| - keep..])),
          Slices(ws, eff - keep),
          IdsOf(victims[..|decoding| - keep]),
          Left(ws, eff - keep))
  }

  method SelectBatch(waiting: seq<WaitingReq>, decoding: seq<DecodingReq>, budget: nat, floor: nat) returns (sel: Batch)
    ensures sel == Select(waiting, decoding, budget, floor)
  {
    hide SortBy, VictimRank, WaitingRank, Sorted, Slices, Left, IdsOf;
    var eff := Effective(budget, floor);
    var keep := Min(|decoding|, eff);
    var victims := SortBy(decoding, VictimRank);
    var prefill, kept := Feed(SortBy(waiting, WaitingRank), eff - keep);
    sel := Batch(Sorted(IdsOf(victims[|decoding| - keep..])), prefill, IdsOf(victims[..|decoding| - keep]), kept);
  }

  method Feed(ws: seq<WaitingReq>, budget: nat) returns (prefill: seq<Slice>, kept: seq<Id>)
    ensures prefill == Slices(ws, budget) && kept == Left(ws, budget)
  {
    prefill, kept := [], [];
    var i, remaining := 0, budget;
    while i < |ws|
      invariant i <= |ws|
      invariant Slices(ws, budget) == prefill + Slices(ws[i..], remaining)
      invariant Left(ws, budget) == kept + Left(ws[i..], remaining)
    {
      var w := ws[i];
      assert ws[i..][1..] == ws[i + 1..];
      var n := Min(w.Want(), remaining);
      if n == 0 {
        kept := kept + [w.id];
      } else {
        prefill := prefill + [Slice(w.id, w.cached, w.cached + n)];
        remaining := remaining - n;
      }
      i := i + 1;
    }
  }

  // ---- what it selects -----------------------------------------------------------------------------

  function Tokens(ss: seq<Slice>): int {
    if ss == [] then 0 else (ss[0].end - ss[0].start) + Tokens(ss[1..])
  }

  function Wants(ws: seq<WaitingReq>): nat {
    if ws == [] then 0 else ws[0].Want() + Wants(ws[1..])
  }

  lemma {:induction false} SlicesFit(ws: seq<WaitingReq>, remaining: nat)
    ensures 0 <= Tokens(Slices(ws, remaining)) <= remaining
    ensures Tokens(Slices(ws, remaining)) == Min(Wants(ws), remaining)
  {
    if ws != [] {
      var n := Min(ws[0].Want(), remaining);
      SlicesFit(ws[1..], remaining - n);
      if n > 0 {
        assert Slices(ws, remaining)[1..] == Slices(ws[1..], remaining - n);
      }
    }
  }

  /** `s` is a slice of `w`: it starts at the confirmed cursor and is never longer than the
      chunk limit or the rest of the prompt. */
  predicate SliceOf(s: Slice, w: WaitingReq) {
    s.id == w.id && s.start == w.cached && 0 < s.end - s.start <= w.Want()
  }

  lemma {:induction false} SlicesAre(ws: seq<WaitingReq>, remaining: nat)
    ensures forall s :: s in Slices(ws, remaining) ==> exists w :: w in ws && SliceOf(s, w)
  {
    if ws != [] {
      var w := ws[0];
      var n := Min(w.Want(), remaining);
      SlicesAre(ws[1..], remaining - n);
      forall s | s in Slices(ws, remaining)
        ensures exists w :: w in ws && SliceOf(s, w)
      {
        if s in Slices(ws[1..], remaining - n) {
          var v :| v in ws[1..] && SliceOf(s, v);
          assert v in ws;
        } else {
          assert s == Slice(w.id, w.cached, w.cached + n) && SliceOf(s, w);
        }
      }
    }
  }

  ghost predicate DistinctIds(ws: seq<WaitingReq>) {
    forall i, j :: 0 <= i < j < |ws| ==> ws[i].id != ws[j].id
  }

  lemma TailIds(ws: seq<WaitingReq>, remaining: nat, s: Slice)
    requires DistinctIds(ws) && ws != [] && s in Slices(ws[1..], remaining)
    ensures s.id != ws[0].id
  {
    SlicesAre(ws[1..], remaining);
    var v :| v in ws[1..] && SliceOf(s, v);
    var k :| 0 <= k < |ws[1..]| && ws[1..][k] == v;
    assert ws[k + 1] == v;
  }

  lemma {:induction false} SlicesDistinct(ws: seq<WaitingReq>, remaining: nat)
    requires DistinctIds(ws)
    ensures forall i, j :: 0 <= i < j < |Slices(ws, remaining)| ==> Slices(ws, remaining)[i].id != Slices(ws, remaining)[j].id
  {
    if ws != [] {
      var n := Min(ws[0].Want(), remaining);
      SlicesDistinct(ws[1..], remaining - n);
      forall s | s in Slices(ws[1..], remaining - n)
        ensures s.id != ws[0].id
      {
        TailIds(ws, remaining - n, s);
      }
    }
  }

  /** Everybody who wants something gets all of it. */
  ghost predicate AllWhole(ws: seq<WaitingReq>, ss: seq<Slice>) {
    forall w :: w in ws && w.Want() > 0 ==> Slice(w.id, w.cached, w.cached + w.Want()) in ss
  }

  lemma {:induction false} PlentyFeedsAll(ws: seq<WaitingReq>, remaining: nat)
    requires Wants(ws) <= remaining
    ensures AllWhole(ws, Slices(ws, remaining))
    ensures forall s :: s in Slices(ws, remaining) ==> exists w :: w in ws && s == Slice(w.id, w.cached, w.cached + w.Want())
  {
    if ws != [] {
      var w := ws[0];
      PlentyFeedsAll(ws[1..], remaining - w.Want());
      var rest := Slices(ws[1..], remaining - w.Want());
      forall v | v in ws && v.Want() > 0
        ensures Slice(v.id, v.cached, v.cached + v.Want()) in Slices(ws, remaining)
      {
        if v != w {
          assert v in ws[1..];
          assert Slice(v.id, v.cached, v.cached + v.Want()) in rest;
        }
      }
      forall s | s in Slices(ws, remaining)
        ensures exists w :: w in ws && s == Slice(w.id, w.cached, w.cached + w.Want())
      {
        if s in rest {
          var v :| v in ws[1..] && s == Slice(v.id, v.cached, v.cached + v.Want());
          assert v in ws;
        }
      }
    }
  }

  /** A budget short of the wishes cuts somebody's slice. */
  lemma {:induction false} ScarceCutsOne(ws: seq<WaitingReq>, remaining: nat)
    requires DistinctIds(ws) && Wants(ws) > remaining
    ensures !AllWhole(ws, Slices(ws, remaining))
  {
    var w := ws[0];
    var n := Min(w.Want(), remaining);
    var rest := Slices(ws[1..], remaining - n);
    if n == w.Want() {
      ScarceCutsOne(ws[1..], remaining - n);
      var v :| v in ws[1..] && v.Want() > 0 && Slice(v.id, v.cached, v.cached + v.Want()) !in rest;
      LaterId(ws, v);
      assert v in ws && Slice(v.id, v.cached, v.cached + v.Want()) !in Slices(ws, remaining);
    } else {
      var whole := Slice(w.id, w.cached, w.cached + w.Want());
      if whole in rest {
        TailIds(ws, remaining - n, whole);
      }
      assert w in ws && whole !in Slices(ws, remaining);
    }
  }

  lemma LaterId(ws: seq<WaitingReq>, v: WaitingReq)
    requires DistinctIds(ws) && ws != [] && v in ws[1..]
    ensures v.id != ws[0].id && v in ws
  {
    var k :| 0 <= k < |ws[1..]| && ws[1..][k] == v;
    assert ws[k + 1] == v;
  }

  lemma {:induction false} WantsOf(ws: seq<WaitingReq>, i: nat)
    requires i < |ws|
    ensures Wants(ws) == Wants(ws[..i] + ws[i + 1..]) + ws[i].Want()
  {
    if i > 0 {
      WantsOf(ws[1..], i - 1);
      assert ws[1..][..i - 1] + ws[1..][i..] == (ws[..i] + ws[i + 1..])[1..];
    } else {
      assert ws[..0] + ws[1..] == ws[1..];
    }
  }

  /** Taking the head of one arrangement out of the other leaves arrangements of the same things. */
  lemma TakeOut<T>(a: seq<T>, b: seq<T>, i: nat)
    requires multiset(a) == multiset(b) && a != [] && i < |b| && b[i] == a[0]
    ensures multiset(a[1..]) == multiset(b[..i] + b[i + 1..])
  {
    Removed(a, 0);
    Removed(b, i);
    assert a[..0] + a[1..] == a[1..];
  }

  lemma Removed<T>(q: seq<T>, i: nat)
    requires i < |q|
    ensures multiset(q[..i] + q[i + 1..]) == multiset(q) - multiset{q[i]}
  {
    assert q == q[..i] + ([q[i]] + q[i + 1..]);
    assert multiset(q) == multiset(q[..i]) + (multiset{q[i]} + multiset(q[i + 1..]));
  }

  /** The total does not depend on the order. */
  lemma {:induction false} WantsPermute(a: seq<WaitingReq>, b: seq<WaitingReq>)
    requires multiset(a) == multiset(b)
    ensures Wants(a) == Wants(b)
    decreases |a|
  {
    assert |multiset(a)| == |multiset(b)|;
    if a != [] {
      assert a[0] in multiset(b);
      var i :| 0 <= i < |b| && b[i] == a[0];
      WantsOf(b, i);
      TakeOut(a, b, i);
      WantsPermute(a[1..], b[..i] + b[i + 1..]);
    }
  }

  lemma DistinctSorted(ws: seq<WaitingReq>, r: seq<WaitingReq>)
    requires DistinctIds(ws) && multiset(r) == multiset(ws)
    ensures DistinctIds(r)
  {
    forall i, j | 0 <= i < j < |r|
      ensures r[i].id != r[j].id
    {
      assert r == r[..i] + [r[i]] + r[i + 1..];
      assert r[j] in r[i + 1..];
      if r[i] == r[j] {
        assert multiset(r)[r[i]] >= 2;
        Twice(ws, r[i]);
      } else {
        assert r[i] in multiset(ws) && r[j] in multiset(ws);
      }
    }
  }

  lemma {:induction false} Twice(ws: seq<WaitingReq>, w: WaitingReq)
    requires DistinctIds(ws)
    ensures multiset(ws)[w] <= 1
  {
    if ws != [] {
      Twice(ws[1..], w);
      assert ws == [ws[0]] + ws[1..];
      if ws[0] == w {
        forall v | v in ws[1..]
          ensures v != w
        {
          LaterId(ws, v);
        }
      }
    }
  }

  /** Every decoding request either keeps its place or is a victim, as many keep it as the
      budget above the floor allows. */
  lemma DecodeSplit(waiting: seq<WaitingReq>, decoding: seq<DecodingReq>, budget: nat, floor: nat)
    ensures var sel := Select(waiting, decoding, budget, floor);
            && multiset(sel.decode) + multiset(sel.preempted) == multiset(IdsOf(decoding))
            && |sel.decode| == (if budget <= floor then 0 else if budget - floor < |decoding| then budget - floor else |decoding|)
            && (sel.preempted == [] <==> |decoding| + floor <= budget || decoding == [])
  {
    hide SortBy, VictimRank, Ordered, Sorted, Slices, Left, WaitingRank, IdsOf;
    var victims := SortBy(decoding, VictimRank);
    IdsPermute(victims, decoding);
    VictimsSplit(victims, |decoding| - Min(|decoding|, Effective(budget, floor)));
  }

  lemma VictimsSplit(victims: seq<DecodingReq>, split: nat)
    requires split <= |victims|
    ensures multiset(Sorted(IdsOf(victims[split..]))) + multiset(IdsOf(victims[..split])) == multiset(IdsOf(victims))
    ensures |Sorted(IdsOf(victims[split..]))| == |victims| - split
    ensures IdsOf(victims[..split]) == IdsOf(victims)[..split]
  {
    assert IdsOf(victims[..split]) + IdsOf(victims[split..]) == IdsOf(victims);
    assert |multiset(Sorted(IdsOf(victims[split..])))| == |multiset(IdsOf(victims[split..]))|;
  }

  lemma IdsSplit(ds: seq<DecodingReq>, i: nat)
    requires i < |ds|
    ensures multiset(IdsOf(ds)) == multiset{ds[i].id} + multiset(IdsOf(ds[..i] + ds[i + 1..]))
    ensures i == 0 ==> IdsOf(ds[1..]) == IdsOf(ds[..i] + ds[i + 1..])
  {
    var before, after := IdsOf(ds[..i]), IdsOf(ds[i + 1..]);
    assert IdsOf(ds) == before + ([ds[i].id] + after);
    assert IdsOf(ds[..i] + ds[i + 1..]) == before + after;
    assert ds[..0] + ds[1..] == ds[1..];
    hide IdsOf;
    assert multiset(before + ([ds[i].id] + after)) == multiset(before) + (multiset{ds[i].id} + multiset(after));
  }

  lemma {:induction false} IdsPermute(a: seq<DecodingReq>, b: seq<DecodingReq>)
    requires multiset(a) == multiset(b)
    ensures multiset(IdsOf(a)) == multiset(IdsOf(b))
    decreases |a|
  {
    assert |multiset(a)| == |multiset(b)|;
    if a != [] {
      assert a[0] in multiset(b);
      var i :| 0 <= i < |b| && b[i] == a[0];
      TakeOut(a, b, i);
      IdsPermute(a[1..], b[..i] + b[i + 1..]);
      IdsSplit(a, 0);
      IdsSplit(b, i);
    }
  }

  /** The step never dispatches more than its budget, and it spends it all unless everybody
      has been served. */
  lemma BudgetKept(waiting: seq<WaitingReq>, decoding: seq<DecodingReq>, budget: nat, floor: nat)
    ensures var sel := Select(waiting, decoding, budget, floor);
            |sel.decode| + Tokens(sel.prefill) == Min(|decoding| + Wants(waiting), Effective(budget, floor))
  {
    hide SortBy, VictimRank, Ordered, Sorted, WaitingRank, IdsOf, Left, DistinctIds, AllWhole, Slices;
    DecodeSplit(waiting, decoding, budget, floor);
    var ws, left := SortBy(waiting, WaitingRank), Effective(budget, floor) - Min(|decoding|, Effective(budget, floor));
    SlicesFit(ws, left);
    WantsPermute(waiting, ws);
  }

  /** Nobody is preempted and nobody's slice is cut by the budget, exactly when the budget
      covers one token for every decoding request and the wishes of all waiting ones. */
  lemma WholeIff(waiting: seq<WaitingReq>, decoding: seq<DecodingReq>, budget: nat, floor: nat)
    requires DistinctIds(waiting)
    ensures var sel := Select(waiting, decoding, budget, floor);
            sel.preempted == [] && AllWhole(waiting, sel.prefill)
            <==> |decoding| + Wants(waiting) <= Effective(budget, floor)
  {
    hide SortBy, VictimRank, Ordered, Sorted, WaitingRank, IdsOf, Left, DistinctIds, Slices;
    DecodeSplit(waiting, decoding, budget, floor);
    var ws, left := SortBy(waiting, WaitingRank), Effective(budget, floor) - Min(|decoding|, Effective(budget, floor));
    WantsPermute(waiting, ws);
    DistinctSorted(waiting, ws);
    assert forall w :: w in ws <==> w in multiset(waiting);
    if Wants(ws) <= left {
      PlentyFeedsAll(ws, left);
    } else {
      ScarceCutsOne(ws, left);
    }
  }

  /** When the budget covers everybody, every slice is all its request wants. */
  lemma EnoughIsWhole(waiting: seq<WaitingReq>, decoding: seq<DecodingReq>, budget: nat, floor: nat)
    requires |decoding| + Wants(waiting) <= Effective(budget, floor)
    ensures var sel := Select(waiting, decoding, budget, floor);
            && sel.preempted == []
            && forall s :: s in sel.prefill ==> exists w :: w in waiting && s == Slice(w.id, w.cached, w.cached + w.Want())
  {
    hide SortBy, VictimRank, Ordered, Sorted, WaitingRank, IdsOf, Left, AllWhole, Slices;
    DecodeSplit(waiting, decoding, budget, floor);
    var ws, left := SortBy(waiting, WaitingRank), Effective(budget, floor) - Min(|decoding|, Effective(budget, floor));
    WantsPermute(waiting, ws);
    PlentyFeedsAll(ws, left);
    forall s | s in Slices(ws, left)
      ensures exists w :: w in waiting && s == Slice(w.id, w.cached, w.cached + w.Want())
    {
      var w :| w in ws && s == Slice(w.id, w.cached, w.cached + w.Want());
      assert w in multiset(waiting);
    }
  }

  /** Every slice belongs to one waiting request, starts at its cursor and stays inside its
      prompt; no request gets two. */
  lemma PrefillIs(waiting: seq<WaitingReq>, decoding: seq<DecodingReq>, budget: nat, floor: nat)
    requires DistinctIds(waiting)
    ensures var ss := Select(waiting, decoding, budget, floor).prefill;
            && (forall s :: s in ss ==> exists w :: w in waiting && SliceOf(s, w))
            && (forall i, j :: 0 <= i < j < |ss| ==> ss[i].id != ss[j].id)
  {
    hide SortBy, VictimRank, Ordered, Sorted, WaitingRank, IdsOf, Left, DistinctIds, AllWhole, Slices;
    var ws, left := SortBy(waiting, WaitingRank), Effective(budget, floor) - Min(|decoding|, Effective(budget, floor));
    SlicesAre(ws, left);
    DistinctSorted(waiting, ws);
    SlicesDistinct(ws, left);
    var ss := Slices(ws, left);
    forall s | s in ss
      ensures exists w :: w in waiting && SliceOf(s, w)
    {
      var w :| w in ws && SliceOf(s, w);
      assert w in multiset(waiting);
    }
  }

  /** Without a budget nothing is prefilled and every decoding request is a victim. */
  lemma NothingRuns(waiting: seq<WaitingReq>, decoding: seq<DecodingReq>, budget: nat, floor: nat)
    requires budget <= floor
    ensures var sel := Select(waiting, decoding, budget, floor);
            && sel.prefill == [] && sel.decode == []
            && multiset(sel.preempted) == multiset(IdsOf(decoding))
  {
    DecodeSplit(waiting, decoding, budget, floor);
    NoSlices(SortBy(waiting, WaitingRank));
  }

  lemma {:induction false} NoSlices(ws: seq<WaitingReq>)
    ensures Slices(ws, 0) == []
  {
    if ws != [] {
      NoSlices(ws[1..]);
    }
  }
}
