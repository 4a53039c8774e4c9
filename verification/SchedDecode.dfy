/** The decode batch leaves every request of the batch complete, and hands out the logits of
    an uncached forward. */
module SchedDecode {
  import opened Transformer
  import opened PagedKv
  import opened Requests
  import opened SchedState
  import opened ExecSteps
  import opened SchedSteps
  import opened SchedRelease
  import opened SchedPrefill

  /** No cell of the request is pending. */
  ghost predicate Full(c: Cfg, s: Sys, id: Id) {
    && id in s.meta && id in s.segs && id in s.reqs && s.meta[id].genBase <= |s.meta[id].generated|
    && var h := Hist(s.meta[id]);
    if IsSingle(s, id) then c.dev.Holds(s.x.engine, 0, h, |h|)
    else c.dev.Holds(s.x.store, s.segs[id], h, |h|)
  }

  /** `id` is complete and `row` is what an uncached forward over its tokens gives. */
  ghost predicate RowIs(c: Cfg, s: Sys, id: Id, row: Vec) {
    Full(c, s, id) && |Hist(s.meta[id])| > 0 && row == Logits(c.dev.m, Hist(s.meta[id]))
  }

  ghost predicate RowsAre(c: Cfg, s: Sys, ids: seq<Id>, rows: seq<Vec>) {
    |rows| == |ids| && forall i :: 0 <= i < |ids| ==> RowIs(c, s, ids[i], rows[i])
  }

  /** If the request is the singleton, the engine pool is known to hold all of it. */
  ghost predicate Ready(s: Sys, id: Id) {
    id in s.reqs && (IsSingle(s, id) ==> s.x.single.value.kvLen == s.reqs[id].cached)
  }

  // ---- the batch -------------------------------------------------------------------------------

  lemma SortedSame(q: seq<Id>)
    ensures |Sorted(q)| == |q|
    ensures forall id :: id in Sorted(q) <==> id in q
    ensures NoDups(q) ==> NoDups(Sorted(q))
  {
    var r := Sorted(q);
    assert |multiset(r)| == |r| && |multiset(q)| == |q|;
    forall id
      ensures id in r <==> id in q
    {
      assert id in multiset(r) <==> id in multiset(q);
    }
    if NoDups(q) {
      NoDupsCount(q);
      CountNoDups(r);
    }
  }

  lemma {:induction false} NoDupsCount(q: seq<Id>)
    requires NoDups(q)
    ensures forall id :: multiset(q)[id] <= 1
  {
    if q != [] {
      var rest, last := q[..|q| - 1], q[|q| - 1];
      NoDupsCount(rest);
      assert last !in rest;
      assert q == rest + [last];
      assert multiset(q) == multiset(rest) + multiset{last};
      assert multiset(rest)[last] == 0;
    }
  }

  lemma CountNoDups(q: seq<Id>)
    requires forall id :: multiset(q)[id] <= 1
    ensures NoDups(q)
  {
    forall i, j | 0 <= i < j < |q|
      ensures q[i] != q[j]
    {
      assert q == q[..j] + q[j..];
      assert multiset(q)[q[i]] == multiset(q[..j])[q[i]] + multiset(q[j..])[q[i]];
      assert q[i] in q[..j];
      assert q[j] in q[j..];
    }
  }

  lemma BatchMembers(c: Cfg, s: Sys)
    requires Books(c, s)
    ensures forall id :: id in Sorted(s.decoding) ==> id in s.meta && id in s.reqs && id in s.segs && s.reqs[id].cached > 0
  {
    SortedSame(s.decoding);
    forall id | id in Sorted(s.decoding)
      ensures id in s.meta && id in s.reqs && id in s.segs && s.reqs[id].cached > 0
    {
      DecodingState(c, s, id);
    }
  }

  /** The batch handed to the executor. */
  ghost function Batch(c: Cfg, s: Sys): (r: seq<ExecReq>)
    requires Books(c, s)
    ensures |r| == |s.decoding|
  {
    BatchMembers(c, s);
    SortedSame(s.decoding);
    BatchOf(s, Sorted(s.decoding))
  }

  lemma BatchAt(c: Cfg, s: Sys, i: nat)
    requires Books(c, s) && i < |s.decoding|
    ensures |Sorted(s.decoding)| == |s.decoding|
    ensures var id := Sorted(s.decoding)[i];
            && id in s.decoding && id in s.meta && id in s.reqs && id in s.segs
            && s.meta[id].genBase <= |s.meta[id].generated|
            && s.reqs[id].cached == |Hist(s.meta[id])| > 0 && |Hist(s.meta[id])| <= c.dev.pp * BLOCK
            && s.segs[id] + c.W() <= AnchorBase(c)
            && Batch(c, s)[i] == ExecReq(id, Hist(s.meta[id])[|Hist(s.meta[id])| - 1],
                                         |Hist(s.meta[id])| - 1, |Hist(s.meta[id])|, s.segs[id])
  {
    BatchMembers(c, s);
    SortedSame(s.decoding);
    var id := Sorted(s.decoding)[i];
    DecodingState(c, s, id);
    assert IdOk(c, s, id);
  }

  lemma BatchFits(c: Cfg, s: Sys)
    requires Books(c, s)
    ensures BatchOk(c, Batch(c, s))
  {
    var b := Batch(c, s);
    forall i | 0 <= i < |b|
      ensures b[i].base + c.W() <= AnchorBase(c) && b[i].pos < c.dev.pp * BLOCK && 0 < b[i].kvLen <= c.dev.pp * BLOCK
    {
      BatchAt(c, s, i);
    }
  }

  /** Two live segments never overlap. */
  lemma SegsApart(c: Cfg, owner: seq<Owner>, refs: seq<nat>, segs: map<Id, nat>, cache: map<Key, nat>, a: Id, b: Id)
    requires OwnedBy(c, owner, refs, segs, cache) && a in segs && b in segs && a != b
    requires segs[a] + c.W() <= c.kvPages && segs[b] + c.W() <= c.kvPages
    ensures c.dev.Apart(segs[a], segs[b])
  {
    WindowPositive(c);
    var p := if segs[a] < segs[b] then segs[b] else segs[a];
    assert owner[p] == Seg(a) <==> segs[a] <= p < segs[a] + c.W();
    assert owner[p] == Seg(b) <==> segs[b] <= p < segs[b] + c.W();
  }

  lemma BatchSpread(c: Cfg, s: Sys)
    requires Books(c, s) && Owned(c, s)
    ensures Spread(c, Batch(c, s))
  {
    var b := Batch(c, s);
    SortedSame(s.decoding);
    forall i, j | 0 <= i < j < |b|
      ensures c.dev.Apart(b[i].base, b[j].base)
    {
      BatchAt(c, s, i);
      BatchAt(c, s, j);
      SegsApart(c, s.owner, s.x.refs, s.segs, Cached(s), b[i].id, b[j].id);
    }
  }

  /** The loop's state once the batch has run. */
  ghost function Ran(c: Cfg, s: Sys): (r: (Sys, seq<Vec>))
    requires Books(c, s) && s.decoding != []
    ensures |r.1| == |s.decoding|
  {
    BatchFits(c, s);
    var (x, rows) := DecodeOp(c, s.x, Batch(c, s));
    (s.(x := x, decoding := Sorted(s.decoding)), rows)
  }

  /** The order of the decode list and the executor's state are irrelevant to the requests. */
  lemma Reordered(c: Cfg, s: Sys, r: Sys)
    requires Queues(s) && Reqs(c, s) && r == s.(x := r.x, decoding := Sorted(s.decoding))
    ensures Queues(r) && Reqs(c, r)
  {
    SortedSame(s.decoding);
    forall o | o in r.reqs
      ensures IdOk(c, r, o)
    {
      assert IdOk(c, s, o);
    }
  }

  lemma RanBooks(c: Cfg, s: Sys)
    requires Books(c, s) && s.decoding != []
    ensures Books(c, Ran(c, s).0)
    ensures forall id :: id in s.decoding ==> Ready(Ran(c, s).0, id)
  {
    var r := Ran(c, s).0;
    Reordered(c, s, r);
    RanSingle(c, s);
    forall id | id in s.decoding
      ensures Ready(r, id)
    {
      DecodingState(c, s, id);
      if |s.decoding| == 1 {
        assert s.decoding == [id];
      }
    }
  }

  lemma RanSingle(c: Cfg, s: Sys)
    requires Books(c, s) && s.decoding != []
    ensures var r := Ran(c, s).0;
            && SingleOk(c, r)
            && if |s.decoding| == 1 then
                 var id := s.decoding[0];
                 id in s.reqs && id in s.segs && r.x.single == Some(Single(id, s.segs[id], s.reqs[id].cached))
               else r.x.single == None
  {
    BatchFits(c, s);
    SortedSame(s.decoding);
    if |s.decoding| == 1 {
      BatchAt(c, s, 0);
      var ids := Sorted(s.decoding);
      assert ids[0] in s.decoding;
      assert ids == [ids[0]];
    }
  }

  lemma RanOne(c: Cfg, s: Sys)
    requires Books(c, s) && Owned(c, s) && Content(c, s) && |s.decoding| == 1
    ensures Ran(c, s).0.x.store == s.x.store && RowIs(c, Ran(c, s).0, s.decoding[0], Ran(c, s).1[0])
  {
    SortedSame(s.decoding);
    BatchFits(c, s);
    BatchAt(c, s, 0);
    var id := s.decoding[0];
    assert Sorted(s.decoding)[0] in s.decoding;
    var b := Batch(c, s);
    assert b == [b[0]];
    assert Lives(c, s, id, s.reqs[id].cached - 1);
    DecodeOneHolds(c, s.x, b[0], Hist(s.meta[id]));
  }

  lemma RanManyRow(c: Cfg, s: Sys, i: nat)
    requires Books(c, s) && Owned(c, s) && Content(c, s) && |s.decoding| > 1 && i < |s.decoding|
    ensures |Sorted(s.decoding)| == |s.decoding|
    ensures RowIs(c, Ran(c, s).0, Sorted(s.decoding)[i], Ran(c, s).1[i])
  {
    BatchFits(c, s);
    BatchSpread(c, s);
    BatchAt(c, s, i);
    var id := Sorted(s.decoding)[i];
    FlushStores(c, s);
    DecodeManyHolds(c, s.x, Batch(c, s), i, Hist(s.meta[id]));
  }

  lemma RanManyCache(c: Cfg, s: Sys)
    requires Books(c, s) && Owned(c, s) && Content(c, s) && |s.decoding| > 1
    ensures CacheHolds(c, Ran(c, s).0)
  {
    BatchFits(c, s);
    FlushStores(c, s);
    var r := Ran(c, s).0;
    forall k | k in Cached(r)
      ensures c.dev.Holds(r.x.store, Cached(r)[k], k, |k|)
    {
      assert DivUp(|k|) == |k| / BLOCK;
      forall p | 0 <= p < c.kvPages && c.dev.InRun(Cached(s)[k], DivUp(|k|), p)
        ensures r.x.store[p] == Flush(c, s.x).store[p]
      {
        RunPageSpared(c, s, k, p);
      }
      c.dev.HoldsFrame(Flush(c, s.x).store, r.x.store, Cached(s)[k], k, |k|);
    }
  }

  /** No batch row, and not the anchor, touches a cached page. */
  lemma RunPageSpared(c: Cfg, s: Sys, k: Key, p: nat)
    requires Books(c, s) && Owned(c, s) && |s.decoding| > 1
    requires k in Cached(s) && p < c.kvPages && c.dev.InRun(Cached(s)[k], |k| / BLOCK, p)
    ensures Ran(c, s).0.x.store[p] == Flush(c, s.x).store[p]
  {
    assert s.owner[p] == Run(k);
    BatchFits(c, s);
    var b := Batch(c, s);
    forall i | 0 <= i < |b|
      ensures !(b[i].base <= p < b[i].base + c.W())
    {
      BatchAt(c, s, i);
      assert s.owner[p] != Seg(b[i].id);
    }
    DecodeManyElsewhere(c, s.x, b, p);
  }

  /** The decode batch: every request of the batch is complete, its row is the logits of its
      own tokens, and the cache is intact. */
  lemma RanHolds(c: Cfg, s: Sys)
    requires Books(c, s) && Owned(c, s) && Content(c, s) && s.decoding != []
    ensures CacheHolds(c, Ran(c, s).0) && RowsAre(c, Ran(c, s).0, Sorted(s.decoding), Ran(c, s).1)
  {
    SortedSame(s.decoding);
    var (r, rows) := Ran(c, s);
    var ids := Sorted(s.decoding);
    if |s.decoding| == 1 {
      RanOne(c, s);
      assert ids[0] in s.decoding;
      assert CacheHolds(c, r);
    } else {
      RanManyCache(c, s);
      forall i | 0 <= i < |ids|
        ensures RowIs(c, r, ids[i], rows[i])
      {
        RanManyRow(c, s, i);
      }
    }
  }

  lemma FullLives(c: Cfg, s: Sys, id: Id)
    requires Queues(s) && Reqs(c, s) && id in s.decoding && Full(c, s, id) && Ready(s, id)
    ensures Lives(c, s, id, s.reqs[id].cached)
  {
    DecodingState(c, s, id);
  }

  lemma RanKeeps(c: Cfg, s: Sys)
    requires Inv(c, s) && s.decoding != []
    ensures Inv(c, Ran(c, s).0)
    ensures forall id :: id in s.decoding ==> Ready(Ran(c, s).0, id)
    ensures !s.chunked ==> RowsAre(c, Ran(c, s).0, Sorted(s.decoding), Ran(c, s).1)
  {
    RanBooks(c, s);
    SortedSame(s.decoding);
    var r := Ran(c, s).0;
    if !s.chunked {
      RanHolds(c, s);
      forall id | id in r.decoding && id in r.reqs && r.reqs[id].cached > 0
        ensures Lives(c, r, id, r.reqs[id].cached - 1)
      {
        var i :| 0 <= i < |r.decoding| && r.decoding[i] == id;
        assert RowIs(c, r, id, Ran(c, s).1[i]);
        FullLives(c, r, id);
      }
    }
  }
}
