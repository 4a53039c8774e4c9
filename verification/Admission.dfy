/** The served loop, step by step: the admission gate, the selection and what it starts.  As
    long as ended requests leave room in the step budget, nobody is ever preempted or prefilled
    in several chunks, so every client receives exactly the stream of its job run alone. */
module Admission {
  import opened Transformer
  import opened PagedKv
  import opened Requests
  import opened SchedState
  import opened ExecSteps
  import opened SchedSteps
  import opened SchedRelease
  import opened SchedPrefill
  import opened SchedDecode
  import opened SchedRuns
  import opened SchedTheorems
  import opened Selection
  import opened StepBudget
  import SchedLoop
  import Arith

  // ---- the gate ---------------------------------------------------------------------------------------

  /** Full windows that fit below the anchor, bounded by the user's cap. */
  function AdmitCap(c: Cfg, maxSeqs: nat): nat {
    WindowPositive(c);
    Min(AnchorBase(c) / c.W(), maxSeqs)
  }

  /** It is as many windows as fit beside the anchor, unless the user wants fewer. */
  lemma AdmitCapIs(c: Cfg, maxSeqs: nat)
    ensures var cap := AdmitCap(c, maxSeqs);
            cap <= maxSeqs && (cap + 1) * c.W() <= c.kvPages && (cap < maxSeqs ==> (cap + 2) * c.W() > c.kvPages)
  {
    WindowPositive(c);
    var cap, w, free := AdmitCap(c, maxSeqs), c.W(), AnchorBase(c);
    Arith.DivMod(free, w);
    Arith.MulMono(cap, free / w, w);
    assert (cap + 1) * w == cap * w + w && (cap + 2) * w == cap * w + w + w;
  }

  /** Who passes, in queue order.  `est` is the working set of the estimates; `granted` are the
      requests that pass the gates other than the one on the request count. */
  function Admit(queue: seq<Id>, est: set<Id>, granted: set<Id>, cap: nat): (seq<Id>, set<Id>) {
    if queue == [] then ([], est)
    else if |est + {queue[0]}| <= cap && queue[0] in granted then
      var (e, x) := Admit(queue[1..], est + {queue[0]}, granted, cap);
      ([queue[0]] + e, x)
    else Admit(queue[1..], est, granted, cap)
  }

  /** `picked` are the positions in `queue`, ascending, that make up `e`. */
  ghost predicate PickedFrom(queue: seq<Id>, e: seq<Id>, picked: seq<nat>) {
    && |picked| == |e|
    && (forall a :: 0 <= a < |e| ==> picked[a] < |queue| && queue[picked[a]] == e[a])
    && forall a, b :: 0 <= a < b < |e| ==> picked[a] < picked[b]
  }

  ghost predicate Subsequence(e: seq<Id>, queue: seq<Id>) {
    exists picked :: PickedFrom(queue, e, picked)
  }

  /** The working set when the gate comes to position `i`: what it was, and the requests before
      that were let in. */
  function WorkingAt(queue: seq<Id>, est: set<Id>, e: seq<Id>, i: nat): set<Id>
    requires i <= |queue|
  {
    est + set id | id in queue[..i] && id in e
  }

  /** The gate asks one request after the other: it lets exactly those in that are granted and
      whose arrival leaves the working set within the cap. */
  ghost predicate GatedInOrder(queue: seq<Id>, est: set<Id>, granted: set<Id>, cap: nat, e: seq<Id>, working: set<Id>) {
    && Subsequence(e, queue)
    && (forall i :: 0 <= i < |queue| ==>
          (queue[i] in e <==> queue[i] in granted && |WorkingAt(queue, est, e, i) + {queue[i]}| <= cap))
    && working == WorkingAt(queue, est, e, |queue|)
  }

  method AdmitQueue(queue: seq<Id>, est: set<Id>, granted: set<Id>, cap: nat) returns (eligible: seq<Id>, working: set<Id>)
    ensures eligible == Admit(queue, est, granted, cap).0 && working == Admit(queue, est, granted, cap).1
    ensures NoDups(queue) ==> GatedInOrder(queue, est, granted, cap, eligible, working)
  {
    if NoDups(queue) {
      AdmitGates(queue, est, granted, cap);
    }
    hide GatedInOrder;
    eligible, working := [], est;
    var i := 0;
    assert queue[0..] == queue;
    while i < |queue|
      invariant i <= |queue|
      invariant Admit(queue, est, granted, cap).0 == eligible + Admit(queue[i..], working, granted, cap).0
      invariant Admit(queue, est, granted, cap).1 == Admit(queue[i..], working, granted, cap).1
    {
      assert queue[i..][1..] == queue[i + 1..];
      if |working + {queue[i]}| <= cap && queue[i] in granted {
        eligible, working := eligible + [queue[i]], working + {queue[i]};
      }
      i := i + 1;
    }
  }

  lemma PickedNext(queue: seq<Id>, e: seq<Id>, picked: seq<nat>, take: bool)
    requires queue != [] && PickedFrom(queue[1..], e, picked)
    ensures Subsequence(if take then [queue[0]] + e else e, queue)
  {
    var shifted := seq(|picked|, a requires 0 <= a < |picked| => picked[a] + 1);
    assert PickedFrom(queue, e, shifted);
    if take {
      var e', all := [queue[0]] + e, [0] + shifted;
      forall a | 0 <= a < |e'|
        ensures all[a] < |queue| && queue[all[a]] == e'[a]
      {
        assert a > 0 ==> queue[1..][picked[a - 1]] == e[a - 1];
      }
      assert PickedFrom(queue, e', all);
    }
  }

  lemma WorkingNext(queue: seq<Id>, est: set<Id>, e: seq<Id>, take: bool, i: nat)
    requires queue != [] && NoDups(queue) && 0 < i <= |queue| && queue[0] !in e
    ensures WorkingAt(queue, est, if take then [queue[0]] + e else e, i)
         == WorkingAt(queue[1..], if take then est + {queue[0]} else est, e, i - 1)
  {
    assert queue[..i] == [queue[0]] + queue[1..][..i - 1];
  }

  lemma {:induction false} AdmitGates(queue: seq<Id>, est: set<Id>, granted: set<Id>, cap: nat)
    requires NoDups(queue)
    ensures GatedInOrder(queue, est, granted, cap, Admit(queue, est, granted, cap).0, Admit(queue, est, granted, cap).1)
  {
    if queue == [] {
      assert PickedFrom(queue, [], []);
      assert WorkingAt(queue, est, [], 0) == est;
    } else {
      var rest, take := queue[1..], |est + {queue[0]}| <= cap && queue[0] in granted;
      var est' := if take then est + {queue[0]} else est;
      var (e, x) := Admit(rest, est', granted, cap);
      AdmitGates(rest, est', granted, cap);
      AdmitOrder(rest, est', granted, cap);
      var picked :| PickedFrom(rest, e, picked);
      PickedNext(queue, e, picked, take);
      AdmitNext(queue, est, granted, cap, e, x, take);
    }
  }

  lemma AdmitNext(queue: seq<Id>, est: set<Id>, granted: set<Id>, cap: nat, e: seq<Id>, x: set<Id>, take: bool)
    requires queue != [] && NoDups(queue) && queue[0] !in e && take == (|est + {queue[0]}| <= cap && queue[0] in granted)
    requires GatedInOrder(queue[1..], if take then est + {queue[0]} else est, granted, cap, e, x)
    requires Subsequence(if take then [queue[0]] + e else e, queue)
    ensures GatedInOrder(queue, est, granted, cap, if take then [queue[0]] + e else e, x)
  {
    hide Subsequence, WorkingAt;
    var e' := if take then [queue[0]] + e else e;
    var est' := if take then est + {queue[0]} else est;
    forall i | 0 <= i < |queue|
      ensures queue[i] in e' <==> queue[i] in granted && |WorkingAt(queue, est, e', i) + {queue[i]}| <= cap
    {
      if i == 0 {
        NoneBefore(queue, est, e');
      } else {
        WorkingNext(queue, est, e, take, i);
        assert queue[1..][i - 1] == queue[i];
      }
    }
    WorkingNext(queue, est, e, take, |queue|);
  }

  lemma NoneBefore(queue: seq<Id>, est: set<Id>, e: seq<Id>)
    ensures WorkingAt(queue, est, e, 0) == est
  {
  }

  lemma {:induction false} AdmitIs(queue: seq<Id>, est: set<Id>, granted: set<Id>, cap: nat)
    requires NoDups(queue) && |est| <= cap
    ensures var (e, x) := Admit(queue, est, granted, cap);
            && |x| <= cap && est <= x && NoDups(e)
            && (forall id :: id in e ==> id in queue && id in x)
  {
    if queue != [] {
      var next := if |est + {queue[0]}| <= cap && queue[0] in granted then est + {queue[0]} else est;
      AdmitIs(queue[1..], next, granted, cap);
      assert forall id :: id in queue[1..] ==> id in queue && id != queue[0];
    }
  }

  // ---- what the selector is shown ---------------------------------------------------------------------------

  function IndexIn(q: seq<Id>, id: Id): nat {
    if q == [] || q[0] == id then 0 else 1 + IndexIn(q[1..], id)
  }

  function Viewed(reqs: map<Id, Req>, meta: map<Id, Meta>, arrivals: seq<Id>, id: Id, chunk: nat): WaitingReq
    requires id in reqs && id in meta
  {
    var r, n := reqs[id], |meta[id].job.prompt|;
    WaitingReq(id, IndexIn(arrivals, id), r.state == Preempted, if r.promptLen > n then r.promptLen else n, r.cached, chunk)
  }

  function WaitingView(s: Sys, id: Id, chunk: nat): WaitingReq
    requires id in s.reqs && id in s.meta
  {
    Viewed(s.reqs, s.meta, s.arrivals, id, chunk)
  }

  function WaitingViews(s: Sys, ids: seq<Id>, chunk: nat): (r: seq<WaitingReq>)
    requires forall id :: id in ids ==> id in s.reqs && id in s.meta
    ensures |r| == |ids| && forall i :: 0 <= i < |ids| ==> r[i] == WaitingView(s, ids[i], chunk)
  {
    ViewsOf(s.reqs, s.meta, s.arrivals, ids, chunk)
  }

  function ViewsOf(reqs: map<Id, Req>, meta: map<Id, Meta>, arrivals: seq<Id>, ids: seq<Id>, chunk: nat): (r: seq<WaitingReq>)
    requires forall id :: id in ids ==> id in reqs && id in meta
    ensures |r| == |ids| && forall i :: 0 <= i < |ids| ==> r[i] == Viewed(reqs, meta, arrivals, ids[i], chunk)
  {
    seq(|ids|, i requires 0 <= i < |ids| => Viewed(reqs, meta, arrivals, ids[i], chunk))
  }

  /** A started request has lost its resume flag. */
  function DecodingView(arrivals: seq<Id>, decoding: seq<Id>): (r: seq<DecodingReq>)
    ensures |r| == |decoding| && IdsOf(r) == decoding
  {
    var r := seq(|decoding|, i requires 0 <= i < |decoding| => DecodingReq(decoding[i], IndexIn(arrivals, decoding[i]), false));
    assert IdsOf(r) == decoding;
    r
  }

  function DecodingViews(s: Sys): (r: seq<DecodingReq>)
    ensures |r| == |s.decoding| && IdsOf(r) == s.decoding
  {
    DecodingView(s.arrivals, s.decoding)
  }

  ghost predicate Shown(s: Sys, ids: seq<Id>) {
    forall id :: id in ids ==> id in s.waiting && id in s.reqs && id in s.meta
  }

  function Selected(c: Cfg, s: Sys, ids: seq<Id>, chunk: nat): Batch
    requires forall id :: id in ids ==> id in s.reqs && id in s.meta
  {
    Select(WaitingViews(s, ids, chunk), DecodingViews(s), Budget(c, s), 0)
  }

  /** The slices with the cache's answers, segments still to come. */
  function Picks(ss: seq<Slice>, hits: Id -> Option<(Key, nat)>): (r: seq<Assignment>)
    ensures |r| == |ss| && forall i :: 0 <= i < |ss| ==> r[i] == Assignment(ss[i].id, ss[i].start, ss[i].end, None, hits(ss[i].id))
  {
    seq(|ss|, i requires 0 <= i < |ss| => Assignment(ss[i].id, ss[i].start, ss[i].end, None, hits(ss[i].id)))
  }

  /** The cache answers with an aligned common prefix of the prompt and a cached key. */
  ghost predicate HitsOk(c: Cfg, s: Sys, hits: Id -> Option<(Key, nat)>) {
    forall id :: id in s.waiting && id in s.meta && hits(id).Some? ==>
      var (k, n) := hits(id).value;
      && k in Cached(s) && 0 < n <= c.dev.pp && n * BLOCK <= |k|
      && n * BLOCK <= |s.meta[id].job.prompt| && k[..n * BLOCK] == s.meta[id].job.prompt[..n * BLOCK]
  }

  lemma ViewsDistinct(s: Sys, ids: seq<Id>, chunk: nat)
    requires Shown(s, ids) && NoDups(ids)
    ensures DistinctIds(WaitingViews(s, ids, chunk))
  {
  }

  /** A waiting request wants the rest of its prompt, up to the chunk limit. */
  lemma WantIs(c: Cfg, s: Sys, id: Id, chunk: nat)
    requires Inv(c, s) && id in s.waiting
    ensures id in s.reqs && id in s.meta && s.reqs[id].cached < |s.meta[id].job.prompt|
    ensures WaitingView(s, id, chunk).Want() == Min(|s.meta[id].job.prompt| - s.reqs[id].cached, chunk)
  {
    assert id in s.meta && IdOk(c, s, id);
  }

  /** What the selector answers is a selection the loop can carry out. */
  lemma SelectedOk(c: Cfg, s: Sys, ids: seq<Id>, chunk: nat, hits: Id -> Option<(Key, nat)>)
    requires Inv(c, s) && Shown(s, ids) && NoDups(ids) && HitsOk(c, s, hits)
    ensures SchedLoop.SelectionOk(c, s, Selected(c, s, ids, chunk).preempted, Picks(Selected(c, s, ids, chunk).prefill, hits))
  {
    var views, sel := WaitingViews(s, ids, chunk), Selected(c, s, ids, chunk);
    var picks := Picks(sel.prefill, hits);
    ViewsDistinct(s, ids, chunk);
    VictimsDecode(c, s, ids, chunk);
    PrefillIs(views, DecodingViews(s), Budget(c, s), 0);
    forall i | 0 <= i < |picks|
      ensures AssignmentOk(c, s, picks[i])
    {
      assert sel.prefill[i] in sel.prefill;
      var w :| w in views && SliceOf(sel.prefill[i], w);
      PickOk(c, s, ids, chunk, hits, w, sel.prefill[i]);
    }
  }

  lemma PickOk(c: Cfg, s: Sys, ids: seq<Id>, chunk: nat, hits: Id -> Option<(Key, nat)>, w: WaitingReq, sl: Slice)
    requires Inv(c, s) && Shown(s, ids) && HitsOk(c, s, hits)
    requires w in WaitingViews(s, ids, chunk) && SliceOf(sl, w)
    ensures AssignmentOk(c, s, Assignment(sl.id, sl.start, sl.end, None, hits(sl.id)))
  {
    hide Inv;
    var k :| 0 <= k < |ids| && WaitingViews(s, ids, chunk)[k] == w;
    assert ids[k] in ids;
    WantIs(c, s, ids[k], chunk);
  }

  lemma VictimsDecode(c: Cfg, s: Sys, ids: seq<Id>, chunk: nat)
    requires Inv(c, s) && Shown(s, ids)
    ensures var v := Selected(c, s, ids, chunk).preempted;
            NoDups(v) && forall i :: 0 <= i < |v| ==> v[i] in s.decoding
  {
    var views, ds := WaitingViews(s, ids, chunk), DecodingViews(s);
    DecodeSplit(views, ds, Budget(c, s), 0);
    var sel := Selected(c, s, ids, chunk);
    assert Queues(s);
    hide Inv, Select, Queues;
    NoDupsSplit(s.decoding, sel.decode, sel.preempted);
  }

  lemma NoDupsSplit(q: seq<Id>, a: seq<Id>, b: seq<Id>)
    requires multiset(a) + multiset(b) == multiset(q) && NoDups(q)
    ensures NoDups(b) && forall i :: 0 <= i < |b| ==> b[i] in q
  {
    NoDupsCount(q);
    forall i | 0 <= i < |b|
      ensures b[i] in q
    {
      assert b[i] in multiset(b);
      assert b[i] in multiset(q);
    }
    forall i, j | 0 <= i < j < |b|
      ensures b[i] != b[j]
    {
      assert multiset(b)[b[i]] <= multiset(q)[b[i]] <= 1;
      if b[i] == b[j] {
        TwoOf(b, i, j);
      }
    }
  }

  lemma TwoOf(b: seq<Id>, i: nat, j: nat)
    requires i < j < |b| && b[i] == b[j]
    ensures multiset(b)[b[i]] >= 2
  {
    assert b == b[..i + 1] + b[i + 1..];
    assert b[i] in b[..i + 1] && b[j] in b[i + 1..];
  }

  // ---- how much a step can need ---------------------------------------------------------------------------------

  /** No request has been preempted or prefilled in part, and none restarted. */
  ghost predicate Fresh(s: Sys) {
    && !s.chunked
    && (forall o :: o in s.reqs && s.reqs[o].Live() ==> s.reqs[o].state == Waiting || s.reqs[o].state == Decode)
    && (forall o :: o in s.meta && o in s.reqs && s.reqs[o].state == Waiting ==> s.meta[o].generated == [])
    && (forall o :: o in s.clients ==> !s.clients[o].restarted)
  }

  function Common(q: seq<Id>, d: set<Id>): set<Id> {
    set id | id in q && id in d
  }

  lemma {:induction false} SumBound(reqs: map<Id, Req>, ids: seq<Id>, d: set<Id>, k: nat)
    requires NoDups(ids)
    requires forall o :: o in reqs && reqs[o].Live() ==> reqs[o].device <= if o in d then k else 0
    ensures Unreturned(reqs, ids) <= |Common(ids, d)| * k
  {
    if ids != [] {
      var rest, last := ids[..|ids| - 1], ids[|ids| - 1];
      SumBound(reqs, rest, d, k);
      assert last !in rest && ids == rest + [last];
      if last in d {
        assert Common(ids, d) == Common(rest, d) + {last};
        Arith.MulStep(|Common(rest, d)|, |Common(ids, d)|, k);
      } else {
        assert Common(ids, d) == Common(rest, d);
      }
    }
  }

  lemma {:induction false} SizeWithin(q: seq<Id>, x: set<Id>)
    requires NoDups(q) && forall id :: id in q ==> id in x
    ensures |q| <= |x|
  {
    if q != [] {
      var rest, last := q[..|q| - 1], q[|q| - 1];
      assert last !in rest;
      SizeWithin(rest, x - {last});
    }
  }

  function ToSet(q: seq<Id>): set<Id> {
    set id | id in q
  }

  lemma CommonSize(q: seq<Id>, d: seq<Id>)
    ensures |Common(q, ToSet(d))| <= |d|
  {
    SetSize(d);
    Within(Common(q, ToSet(d)), ToSet(d));
  }

  lemma Within(a: set<Id>, b: set<Id>)
    requires a <= b
    ensures |a| <= |b|
  {
    assert b == a + (b - a);
  }

  lemma {:induction false} SetSize(d: seq<Id>)
    ensures |ToSet(d)| <= |d|
  {
    if d != [] {
      SetSize(d[1..]);
      assert ToSet(d) == ToSet(d[1..]) + {d[0]};
    }
  }

  lemma {:induction false} WantsBound(ws: seq<WaitingReq>, k: nat)
    requires forall i :: 0 <= i < |ws| ==> ws[i].Want() <= k
    ensures Wants(ws) <= |ws| * k
  {
    if ws != [] {
      WantsBound(ws[1..], k);
      Arith.MulStep(|ws| - 1, |ws|, k);
    }
  }

  lemma DeviceBound(c: Cfg, s: Sys, o: Id)
    requires Inv(c, s) && Fresh(s) && o in s.reqs && s.reqs[o].Live()
    ensures s.reqs[o].device <= if o in s.decoding then c.maxLen else 0
  {
    assert IdOk(c, s, o);
  }

  lemma UsageBound(c: Cfg, s: Sys)
    requires Inv(c, s) && Fresh(s)
    ensures Usage(s.reqs, s.arrivals) <= Retired(s.reqs, s.arrivals) + |s.decoding| * c.maxLen
  {
    var d := ToSet(s.decoding);
    forall o | o in s.reqs && s.reqs[o].Live()
      ensures s.reqs[o].device <= if o in d then c.maxLen else 0
    {
      DeviceBound(c, s, o);
    }
    assert Queues(s);
    hide Inv, Fresh;
    SumBound(s.reqs, s.arrivals, d, c.maxLen);
    CommonSize(s.arrivals, s.decoding);
    Arith.MulMono(|Common(s.arrivals, d)|, |s.decoding|, c.maxLen);
    UsageSplits(s.reqs, s.arrivals);
  }

  lemma ViewsWant(c: Cfg, s: Sys, ids: seq<Id>, chunk: nat)
    requires Inv(c, s) && Shown(s, ids)
    ensures Wants(WaitingViews(s, ids, chunk)) <= |ids| * c.maxLen
  {
    var ws := WaitingViews(s, ids, chunk);
    forall i | 0 <= i < |ws|
      ensures ws[i].Want() <= c.maxLen
    {
      assert ids[i] in ids;
      WantIs(c, s, ids[i], chunk);
      assert IdOk(c, s, ids[i]);
    }
    WantsBound(ws, c.maxLen);
  }

  /** Ended requests leave room for `cap` full contexts and a token each. */
  predicate Room(c: Cfg, cap: nat, s: Sys) {
    Retired(s.reqs, s.arrivals) + cap * (c.maxLen + 1) <= PoolTokens(c)
  }

  lemma SizesAdd(c: Cfg, s: Sys, ids: seq<Id>, working: set<Id>)
    requires Inv(c, s) && Shown(s, ids) && NoDups(ids)
    requires (forall id :: id in ids ==> id in working) && (forall id :: id in s.decoding ==> id in working)
    ensures |s.decoding| + |ids| <= |working|
  {
    var q := s.decoding + ids;
    forall i, j | 0 <= i < |s.decoding| && 0 <= j < |ids|
      ensures s.decoding[i] != ids[j]
    {
      assert ids[j] in ids;
      SchedLoop.WaitingStays(c, s, ids[j], s.decoding[i]);
    }
    assert Queues(s);
    hide Inv;
    assert NoDups(q);
    SizeWithin(q, working);
  }

  /** With that room the budget covers everybody. */
  lemma BudgetCovers(c: Cfg, s: Sys, ids: seq<Id>, working: set<Id>, cap: nat, chunk: nat)
    requires Inv(c, s) && Fresh(s) && Room(c, cap, s) && Shown(s, ids) && NoDups(ids) && |working| <= cap
    requires (forall id :: id in ids ==> id in working) && (forall id :: id in s.decoding ==> id in working)
    ensures |s.decoding| + Wants(WaitingViews(s, ids, chunk)) <= Budget(c, s)
  {
    hide Inv, Fresh, Shown;
    UsageBound(c, s);
    ViewsWant(c, s, ids, chunk);
    SizesAdd(c, s, ids, working);
    Spare(c.maxLen, |s.decoding|, |ids|, cap);
  }

  lemma Spare(k: nat, d: nat, e: nat, cap: nat)
    requires d + e <= cap
    ensures d * k + d + e * k <= cap * (k + 1)
  {
    Arith.MulMono(d + e, cap, k + 1);
    assert (d + e) * (k + 1) == d * k + d + e * k + e;
  }

  /** Such a step preempts nobody, and every slice is a whole prompt. */
  lemma SelectsWhole(c: Cfg, s: Sys, ids: seq<Id>, working: set<Id>, cap: nat, chunk: nat)
    requires Inv(c, s) && Fresh(s) && Room(c, cap, s) && Shown(s, ids) && NoDups(ids) && |working| <= cap
    requires (forall id :: id in ids ==> id in working) && (forall id :: id in s.decoding ==> id in working)
    requires c.maxLen <= chunk
    ensures var sel := Selected(c, s, ids, chunk);
            && sel.preempted == []
            && forall i :: 0 <= i < |sel.prefill| ==> WholePrompt(s, working, sel.prefill[i].id, sel.prefill[i].start, sel.prefill[i].end)
  {
    hide Inv, Fresh, Room, Select, Budget, DecodingViews, WaitingReq.Want, WaitingViews, WholePrompt;
    BudgetCovers(c, s, ids, working, cap, chunk);
    var views, sel := WaitingViews(s, ids, chunk), Selected(c, s, ids, chunk);
    EnoughIsWhole(views, DecodingViews(s), Budget(c, s), 0);
    forall i | 0 <= i < |sel.prefill|
      ensures WholePrompt(s, working, sel.prefill[i].id, sel.prefill[i].start, sel.prefill[i].end)
    {
      assert sel.prefill[i] in sel.prefill;
      var w :| w in views && sel.prefill[i] == Slice(w.id, w.cached, w.cached + w.Want());
      SliceWhole(c, s, ids, working, chunk, w);
    }
  }

  lemma SliceWhole(c: Cfg, s: Sys, ids: seq<Id>, working: set<Id>, chunk: nat, w: WaitingReq)
    requires Inv(c, s) && Fresh(s) && Shown(s, ids) && w in WaitingViews(s, ids, chunk) && c.maxLen <= chunk
    requires forall id :: id in ids ==> id in working
    ensures WholePrompt(s, working, w.id, w.cached, w.cached + w.Want())
  {
    hide Inv, Fresh, WaitingReq.Want;
    var k :| 0 <= k < |ids| && WaitingViews(s, ids, chunk)[k] == w;
    assert ids[k] in ids;
    WholeView(c, s, ids[k], chunk);
  }

  ghost predicate WholePrompt(s: Sys, working: set<Id>, id: Id, start: nat, end: nat) {
    id in s.clients && id in working && start == 0 && end == |s.clients[id].job.prompt|
  }

  lemma WholeView(c: Cfg, s: Sys, id: Id, chunk: nat)
    requires Inv(c, s) && Fresh(s) && id in s.waiting && c.maxLen <= chunk
    ensures id in s.reqs && id in s.meta && id in s.clients
    ensures var w := WaitingView(s, id, chunk); w.cached == 0 && w.Want() == |s.clients[id].job.prompt|
  {
    WantIs(c, s, id, chunk);
    assert IdOk(c, s, id);
    hide WaitingReq.Want;
  }

  // ---- the served loop as a transition system -----------------------------------------------------------------------

  /** The loop's state and the working set of its admission estimates. */
  datatype Server = Server(s: Sys, est: set<Id>)

  /** Limits of a server: the user's request cap and the chunk limit. */
  datatype Limits = Limits(maxSeqs: nat, chunk: nat)

  /** A request's estimate goes when the request ends. */
  function StillLive(est: set<Id>, reqs: map<Id, Req>): (r: set<Id>)
    ensures r <= est
  {
    set o | o in est && o in reqs && reqs[o].Live()
  }

  /** One scheduling step: the gate, the selection, what it starts, and a decode step. */
  ghost predicate Iterated(c: Cfg, k: Limits, v: Server, granted: set<Id>, hits: Id -> Option<(Key, nat)>,
                           outs: Id -> Outcome, mid: Sys, w: Server)
  {
    var (ids, working) := Admit(v.s.waiting, v.est, granted, AdmitCap(c, k.maxSeqs));
    && Shown(v.s, ids) && HitsOk(c, v.s, hits)
    && var sel := Selected(c, v.s, ids, k.chunk);
    && SchedLoop.Progress(c, v.s, sel.preempted, Picks(sel.prefill, hits), mid)
    && Inv(c, mid) && w.s == SchedRuns.DecodeStep(c, mid, outs)
    && w.est == StillLive(working, w.s.reqs)
  }

  /** A command: a job handed in, or a request taken back. */
  ghost predicate Commanded(c: Cfg, v: Server, w: Server) {
    || (exists id: Id, job: Job :: id !in v.s.reqs && (job.prompt != [] ==> JobOk(c, job)) && w == Server(Submit(c, v.s, id, job), v.est))
    || (exists id: Id :: w == Server(Abort(c, v.s, id), StillLive(v.est, Abort(c, v.s, id).reqs)))
  }

  ghost predicate Scheduled(c: Cfg, k: Limits, v: Server, w: Server) {
    exists granted, hits, outs, mid :: Iterated(c, k, v, granted, hits, outs, mid, w)
  }

  ghost predicate ServedStep(c: Cfg, k: Limits, v: Server, w: Server) {
    Commanded(c, v, w) || Scheduled(c, k, v, w)
  }

  /** `w` is a state of the server after `n` commands and steps. */
  ghost predicate Serves(c: Cfg, k: Limits, n: nat, w: Server) {
    if n == 0 then Initial(c, w.s) && w.est == {}
    else exists v :: Serves(c, k, n - 1, v) && ServedStep(c, k, v, w)
  }

  /** The step on the running loop: the gate, the selector, and what the loop does with it. */
  method ScheduleStep(loop: SchedLoop.SchedLoop, k: Limits, est: set<Id>, granted: set<Id>,
                      hits: Id -> Option<(Key, nat)>, outs: Id -> Outcome)
    returns (working: set<Id>, ghost mid: Sys)
    requires loop.Sound() && HitsOk(loop.c, loop.State(), hits)
    modifies loop.Repr()
    ensures loop.Sound()
    ensures Iterated(loop.c, k, Server(old(loop.State()), est), granted, hits, outs, mid, Server(loop.State(), working))
  {
    hide Reachable, Inv, Select, HitsOk, AdmitCap, ViewsOf, DecodingView;
    ghost var s := loop.State();
    ReachableInv(loop.c, s);
    QueueDistinct(loop.c, s);
    var ids, admitted := AdmitQueue(loop.waiting, est, granted, AdmitCap(loop.c, k.maxSeqs));
    AdmitShown(loop.c, s, est, granted, AdmitCap(loop.c, k.maxSeqs));
    var views := ViewsOf(loop.reqs, loop.meta, loop.arrivals, ids, k.chunk);
    var budget := Effective(PoolTokens(loop.c), Usage(loop.reqs, loop.arrivals));
    var sel := SelectBatch(views, DecodingView(loop.arrivals, loop.decoding), budget, 0);
    SelectedOk(loop.c, s, ids, k.chunk, hits);
    mid := loop.Iterate(sel.preempted, Picks(sel.prefill, hits), outs);
    working := StillLive(admitted, loop.reqs);
  }

  lemma AdmitShown(c: Cfg, s: Sys, est: set<Id>, granted: set<Id>, cap: nat)
    requires Inv(c, s)
    ensures Shown(s, Admit(s.waiting, est, granted, cap).0) && NoDups(Admit(s.waiting, est, granted, cap).0)
  {
    assert Queues(s);
    hide Inv;
    AdmitOrder(s.waiting, est, granted, cap);
    assert forall id :: id in s.waiting ==> id in s.meta && id in s.reqs;
  }

  lemma {:induction false} AdmitOrder(queue: seq<Id>, est: set<Id>, granted: set<Id>, cap: nat)
    requires NoDups(queue)
    ensures var e := Admit(queue, est, granted, cap).0; NoDups(e) && forall id :: id in e ==> id in queue
  {
    if queue != [] {
      var next := if |est + {queue[0]}| <= cap && queue[0] in granted then est + {queue[0]} else est;
      AdmitOrder(queue[1..], next, granted, cap);
      assert forall id :: id in queue[1..] ==> id in queue && id != queue[0];
      assert queue[0] !in Admit(queue[1..], next, granted, cap).0;
    }
  }

  lemma QueueDistinct(c: Cfg, s: Sys)
    requires Inv(c, s)
    ensures NoDups(s.waiting)
  {
  }

  // ---- every step keeps the server fresh --------------------------------------------------------------------------------

  ghost predicate Calm(c: Cfg, k: Limits, v: Server) {
    Inv(c, v.s) && Fresh(v.s) && |v.est| <= AdmitCap(c, k.maxSeqs) && forall id :: id in v.s.decoding ==> id in v.est
  }

  lemma FadesFresh(s: Sys, t: Sys)
    requires Fades(s, t) && Fresh(s)
    ensures Fresh(t)
  {
    forall o | o in t.reqs && t.reqs[o].Live()
      ensures t.reqs[o].state == Waiting || t.reqs[o].state == Decode
      ensures t.reqs[o].state == Waiting ==> s.reqs[o] == t.reqs[o]
    {
      assert Ages(s.reqs[o], t.reqs[o]);
    }
  }

  lemma FadesEst(c: Cfg, s: Sys, t: Sys, est: set<Id>)
    requires Fades(s, t) && Inv(c, t) && forall id :: id in s.decoding ==> id in est
    ensures forall id :: id in t.decoding ==> id in StillLive(est, t.reqs)
  {
    hide Inv;
    forall id | id in t.decoding
      ensures id in StillLive(est, t.reqs)
    {
      StillDecoding(c, t, id);
    }
  }

  lemma StillDecoding(c: Cfg, t: Sys, id: Id)
    requires Inv(c, t) && id in t.decoding
    ensures id in t.reqs && t.reqs[id].Live()
  {
    DecodingState(c, t, id);
  }

  lemma JoinsFresh(s: Sys, a: Assignment, end: nat, t: Sys, est: set<Id>)
    requires Joins(s, a, end, t) && Fresh(s) && a.start == 0 && end == |s.meta[a.id].job.prompt| && a.id in est
    requires s.reqs[a.id].state == Waiting
    requires s.clients.Keys == s.reqs.Keys && forall id :: id in s.decoding ==> id in est
    ensures Fresh(t) && forall id :: id in t.decoding ==> id in est
  {
  }

  /** A whole-prompt assignment keeps the server fresh. */
  lemma WholeFresh(c: Cfg, s: Sys, a: Assignment, est: set<Id>)
    requires Inv(c, s) && Fresh(s) && AssignmentOk(c, s, a) && WholePrompt(s, est, a.id, a.start, a.end)
    requires forall id :: id in s.decoding ==> id in est
    ensures Fresh(Assign(c, s, a)) && forall id :: id in Assign(c, s, a).decoding ==> id in est
    ensures forall o :: o in s.clients ==> o in Assign(c, s, a).clients && Assign(c, s, a).clients[o].job == s.clients[o].job
  {
    AssignJoins(c, s, a);
    WaitingWhole(c, s, a, est);
    hide Inv, Assign, AssignmentOk, Fresh;
    if Proceeds(c, s, a) {
      JoinsFresh(s, a, EndOf(s, a), Assign(c, s, a), est);
    }
  }

  lemma WaitingWhole(c: Cfg, s: Sys, a: Assignment, est: set<Id>)
    requires Inv(c, s) && Fresh(s) && AssignmentOk(c, s, a) && WholePrompt(s, est, a.id, a.start, a.end)
    ensures s.clients.Keys == s.reqs.Keys && s.reqs[a.id].state == Waiting && EndOf(s, a) == |s.meta[a.id].job.prompt|
  {
    assert IdOk(c, s, a.id);
  }

  /** Whole prompts only, as they stood in `s`. */
  ghost predicate WholeOnly(s: Sys, est: set<Id>, es: seq<Event>) {
    forall i :: 0 <= i < |es| ==> es[i].Prefilled? && WholePrompt(s, est, es[i].a.id, es[i].a.start, es[i].a.end)
  }

  lemma {:induction false} PrefillsFresh(c: Cfg, s: Sys, es: seq<Event>, t: Sys, est: set<Id>)
    requires Fresh(s) && Reaches(c, s, es, t) && WholeOnly(s, est, es) && forall id :: id in s.decoding ==> id in est
    ensures Fresh(t) && forall id :: id in t.decoding ==> id in est
    ensures forall o :: o in s.clients ==> o in t.clients && t.clients[o].job == s.clients[o].job
    decreases |es|
  {
    hide Inv, Fresh, Assign, AssignmentOk;
    if es != [] {
      var prior, last := es[..|es| - 1], es[|es| - 1];
      var p :| Reaches(c, s, prior, p) && Steps(c, p, last, t);
      PrefillsFresh(c, s, prior, p, est);
      WholeFresh(c, p, last.a, est);
    }
  }

  /** What a server with room starts in one step leaves it fresh. */
  lemma StartsFresh(c: Cfg, s: Sys, picks: seq<Assignment>, mid: Sys, est: set<Id>)
    requires Fresh(s) && SchedLoop.Progress(c, s, [], picks, mid) && forall id :: id in s.decoding ==> id in est
    requires forall i :: 0 <= i < |picks| ==> WholePrompt(s, est, picks[i].id, picks[i].start, picks[i].end)
    ensures Fresh(mid) && (forall id :: id in mid.decoding ==> id in est) && Onward(s, mid)
  {
    hide Fresh, Reaches, WholePrompt, SchedLoop.Allots;
    var es: seq<Event> :| SchedLoop.Carries(es, [], picks) && SchedLoop.Allots(c, s, es, mid);
    SchedLoop.AllotsReaches(c, s, es, mid);
    assert es[0..] == es;
    forall i | 0 <= i < |es|
      ensures es[i].Prefilled? && WholePrompt(s, est, es[i].a.id, es[i].a.start, es[i].a.end)
    {
      assert es[i].a.(alloc := None) == picks[i];
    }
    PrefillsFresh(c, s, es, mid, est);
    RunOnward(c, s, es, mid);
  }

  lemma IterateCalm(c: Cfg, k: Limits, v: Server, granted: set<Id>, hits: Id -> Option<(Key, nat)>,
                    outs: Id -> Outcome, mid: Sys, w: Server)
    requires Calm(c, k, v) && Room(c, AdmitCap(c, k.maxSeqs), v.s) && c.maxLen <= k.chunk
    requires Iterated(c, k, v, granted, hits, outs, mid, w)
    ensures Calm(c, k, w)
  {
    hide Inv, Fresh, Room, AdmitCap, Selected, SchedLoop.Progress, WholePrompt, Admit, SchedRuns.DecodeStep, Fades, HitsOk;
    var (ids, working) := Admit(v.s.waiting, v.est, granted, AdmitCap(c, k.maxSeqs));
    QueueDistinct(c, v.s);
    AdmitIs(v.s.waiting, v.est, granted, AdmitCap(c, k.maxSeqs));
    SelectsWhole(c, v.s, ids, working, AdmitCap(c, k.maxSeqs), k.chunk);
    StartsFresh(c, v.s, Picks(Selected(c, v.s, ids, k.chunk).prefill, hits), mid, working);
    DecodeKeeps(c, mid, outs);
    DecodeFades(c, mid, outs);
    FadesFresh(mid, w.s);
    FadesEst(c, mid, w.s, working);
    Within(w.est, working);
  }

  lemma SubmitCalm(c: Cfg, k: Limits, v: Server, id: Id, job: Job)
    requires Calm(c, k, v) && id !in v.s.reqs && (job.prompt != [] ==> JobOk(c, job))
    ensures Calm(c, k, Server(Submit(c, v.s, id, job), v.est))
  {
    hide Inv, AdmitCap, Fresh, Submit, JobOk;
    SubmitKeeps(c, v.s, id, job);
    KeysMatch(c, v.s);
    SubmitFresh(c, v.s, id, job);
  }

  lemma SubmitFresh(c: Cfg, s: Sys, id: Id, job: Job)
    requires Fresh(s) && id !in s.reqs && s.clients.Keys == s.reqs.Keys
    ensures Fresh(Submit(c, s, id, job)) && Submit(c, s, id, job).decoding == s.decoding
  {
  }

  lemma AbortCalm(c: Cfg, k: Limits, v: Server, id: Id)
    requires Calm(c, k, v)
    ensures Calm(c, k, Server(Abort(c, v.s, id), StillLive(v.est, Abort(c, v.s, id).reqs)))
  {
    hide Inv, Fresh, AdmitCap, Abort, Fades;
    KeysMatch(c, v.s);
    AbortKeeps(c, v.s, id);
    AbortFades(c, v.s, id);
    FadesFresh(v.s, Abort(c, v.s, id));
    FadesEst(c, v.s, Abort(c, v.s, id), v.est);
    Within(StillLive(v.est, Abort(c, v.s, id).reqs), v.est);
  }

  // ---- whole runs of the server ----------------------------------------------------------------------------------------

  /** Every step of the server is made of events of the loop, so it only moves onward. */
  lemma ServedOnward(c: Cfg, k: Limits, v: Server, w: Server)
    requires Inv(c, v.s) && Reachable(c, v.s) && ServedStep(c, k, v, w)
    ensures Onward(v.s, w.s) && Reachable(c, w.s)
  {
    hide Inv, Reachable, Submit, Abort, Onward, Iterated, StillLive;
    if id: Id, job: Job :| id !in v.s.reqs && (job.prompt != [] ==> JobOk(c, job)) && w == Server(Submit(c, v.s, id, job), v.est) {
      SubmitOnward(c, v.s, id, job);
      SchedLoop.ReachableNext(c, v.s, Submitted(id, job));
    } else if id: Id :| w == Server(Abort(c, v.s, id), StillLive(v.est, Abort(c, v.s, id).reqs)) {
      AbortOnward(c, v.s, id);
      SchedLoop.ReachableNext(c, v.s, AbortedBy(id));
    } else {
      var granted, hits, outs, mid :| Iterated(c, k, v, granted, hits, outs, mid, w);
      IterateOnward(c, k, v, granted, hits, outs, mid, w);
    }
  }

  lemma IterateOnward(c: Cfg, k: Limits, v: Server, granted: set<Id>, hits: Id -> Option<(Key, nat)>,
                      outs: Id -> Outcome, mid: Sys, w: Server)
    requires Reachable(c, v.s) && Iterated(c, k, v, granted, hits, outs, mid, w)
    ensures Onward(v.s, w.s) && Reachable(c, w.s)
  {
    hide Inv, Reachable, Reaches, SchedLoop.Carries, SchedLoop.Allots, Select, HitsOk, Admit, SchedRuns.DecodeStep;
    var ids := Admit(v.s.waiting, v.est, granted, AdmitCap(c, k.maxSeqs)).0;
    var sel := Selected(c, v.s, ids, k.chunk);
    var es: seq<Event> :| SchedLoop.Carries(es, sel.preempted, Picks(sel.prefill, hits)) && SchedLoop.Allots(c, v.s, es, mid);
    SchedLoop.AllotsReaches(c, v.s, es, mid);
    RunOnward(c, v.s, es, mid);
    DecodeOnward(c, mid, outs);
    SchedLoop.ReachableFar(c, v.s, sel.preempted, Picks(sel.prefill, hits), mid);
    SchedLoop.ReachableNext(c, mid, Decoded(outs));
  }

  lemma ServedCalm(c: Cfg, k: Limits, v: Server, w: Server)
    requires Calm(c, k, v) && ServedStep(c, k, v, w) && Room(c, AdmitCap(c, k.maxSeqs), v.s) && c.maxLen <= k.chunk
    ensures Calm(c, k, w)
  {
    hide Calm, Room, AdmitCap, Submit, Abort, Iterated, StillLive;
    if id: Id, job: Job :| id !in v.s.reqs && (job.prompt != [] ==> JobOk(c, job)) && w == Server(Submit(c, v.s, id, job), v.est) {
      SubmitCalm(c, k, v, id, job);
    } else if id: Id :| w == Server(Abort(c, v.s, id), StillLive(v.est, Abort(c, v.s, id).reqs)) {
      AbortCalm(c, k, v, id);
    } else {
      var granted, hits, outs, mid :| Iterated(c, k, v, granted, hits, outs, mid, w);
      IterateCalm(c, k, v, granted, hits, outs, mid, w);
    }
  }

  /** As long as there is room at the end there was room all along, and the server never
      preempted, chunked or restarted anything. */
  lemma {:induction false} ServesCalm(c: Cfg, k: Limits, n: nat, w: Server)
    requires Serves(c, k, n, w) && c.maxLen <= k.chunk
    ensures Reachable(c, w.s)
    ensures Room(c, AdmitCap(c, k.maxSeqs), w.s) ==> Calm(c, k, w)
  {
    if n == 0 {
      assert Reaches(c, w.s, [], w.s);
      ReachableInv(c, w.s);
    } else {
      hide Calm, AdmitCap, ServedStep, Reachable;
      var v :| Serves(c, k, n - 1, v) && ServedStep(c, k, v, w);
      ServesCalm(c, k, n - 1, v);
      ReachableInv(c, v.s);
      ServedOnward(c, k, v, w);
      OnwardRetires(v.s, w.s);
      if Room(c, AdmitCap(c, k.maxSeqs), w.s) {
        ServedCalm(c, k, v, w);
      }
    }
  }

  /** The served configuration: while ended requests leave room, every client, whatever the
      others do, has received a prefix of the stream of its job run alone, all of it once it is
      done, and nobody has been preempted or prefilled in chunks. */
  lemma ServedIsolation(c: Cfg, k: Limits, n: nat, w: Server, id: Id)
    requires Serves(c, k, n, w) && c.maxLen <= k.chunk && Room(c, AdmitCap(c, k.maxSeqs), w.s)
    requires id in w.s.clients
    ensures !w.s.chunked && !w.s.clients[id].restarted
    ensures id in w.s.reqs && w.s.reqs[id].state != Preempted && w.s.reqs[id].state != Chunked
    ensures var cl := w.s.clients[id];
            && |cl.job.prompt| > 0
            && cl.emitted <= SerialStream(c.Net(), Served(cl.job))
            && (cl.done ==> cl.emitted == SerialStream(c.Net(), Served(cl.job)))
  {
    hide Inv, Reachable, Serves, Room, AdmitCap;
    ServesCalm(c, k, n, w);
    KeysMatch(c, w.s);
    Isolation(c, w.s, id);
  }

  /** A fresh server that has accepted one request is such a run. */
  lemma ServerStarts(c: Cfg, k: Limits) returns (w: Server)
    requires 2 <= c.maxLen < c.W() * BLOCK
    ensures Serves(c, k, 1, w) && Room(c, AdmitCap(c, k.maxSeqs), w.s) && 0 in w.s.clients && 0 in w.s.waiting
  {
    var v := Server(Start(c), {});
    w := Server(Submit(c, v.s, 0, ONE), {});
    StartInitial(c);
    RoomAtFirst(c, k, w.s);
    hide Start, Room, AdmitCap, Initial;
    assert Serves(c, k, 0, v);
    assert ServedStep(c, k, v, w);
  }

  lemma StartInitial(c: Cfg)
    ensures Initial(c, Start(c)) && 0 !in Start(c).reqs
  {
    hide OwnWindow, TakeRefs, BlankMem;
  }

  /** A server that has ended nothing has room if a window has a cell more than the context:
      always with two layers or more. */
  lemma RoomAtFirst(c: Cfg, k: Limits, s: Sys)
    requires Retired(s.reqs, s.arrivals) == 0
    requires c.maxLen < c.W() * BLOCK
    ensures Room(c, AdmitCap(c, k.maxSeqs), s)
  {
    WindowPositive(c);
    var cap, w := AdmitCap(c, k.maxSeqs), c.W();
    Arith.MulMono(cap, AnchorBase(c) / w, w);
    Arith.DivMod(AnchorBase(c), w);
    assert cap * w <= AnchorBase(c);
    Arith.MulMono(cap * w, AnchorBase(c), BLOCK);
    Arith.MulMono(c.maxLen + 1, w * BLOCK, cap);
    assert cap * (c.maxLen + 1) <= cap * (w * BLOCK) == cap * w * BLOCK;
  }

  lemma TwoLayersSuffice(c: Cfg)
    requires c.dev.m.nLayer >= 2
    ensures c.maxLen < c.W() * BLOCK
  {
    c.dev.OffIsProduct(c.dev.m.nLayer);
    Arith.MulMono(2, c.dev.m.nLayer, c.dev.pp);
  }
}
