/** The estimate-based admission gates: what a request may still come to hold, the peak of a working
    set, and when the gates let it through. */
module Estimates {
  import opened Requests
  import Arith
  import Selection

  const ADDED_OUTPUT: nat := 16

  /** What a request holds at first, and how many tokens more it may come to. */
  datatype Estimate = Estimate(a: nat, b: nat)

  datatype Input = Input(
    inputLen: nat, maxNew: nat, hasOut: nat, shmKv: nat, chunkedRemaining: nat, chunkSize: nat, busy: bool, ema: nat,
    maxWaiting: nat)

  function Most(a: nat, b: nat): nat {
    if a > b then a else b
  }

  /** The chunks still to come, rounded up. */
  function Chunks(remaining: nat, size: nat): nat {
    if size == 0 then 0 else (remaining + size - 1) / size
  }

  function EstimateOf(i: Input): Estimate {
    var a := Most(i.inputLen + i.hasOut + 1, i.shmKv + 1);
    var b := if i.busy then i.maxNew else Selection.Min(i.maxNew, Most((11 * i.hasOut + 9) / 10, i.ema));
    var more := Chunks(i.chunkedRemaining, i.chunkSize) * (i.maxWaiting + 1);
    Estimate(a, b + ADDED_OUTPUT + more)
  }

  /** The chunks cover what is left, and one chunk fewer would not. */
  lemma ChunksCover(remaining: nat, size: nat)
    requires size > 0
    ensures (Chunks(remaining, size) - 1) * size < remaining <= Chunks(remaining, size) * size || (remaining == Chunks(remaining, size) == 0)
  {
    Arith.DivMod(remaining + size - 1, size);
    var n := Chunks(remaining, size);
    assert n * size + (remaining + size - 1) % size == remaining + size - 1;
    assert (n - 1) * size == n * size - size;
  }

  /** At first a request holds all it has, one token more than its input and output or than its
      shared part.  When busy it is taken to run to its limit; otherwise to eleven tenths of its
      output or to the average, whichever is more, and never past the limit.  On top come 16
      tokens, and for every chunk to come one more than the longest wait. */
  lemma EstimateIs(i: Input)
    ensures var e := EstimateOf(i);
            && e.a >= i.inputLen + i.hasOut + 1 && e.a >= i.shmKv + 1
            && (e.a == i.inputLen + i.hasOut + 1 || e.a == i.shmKv + 1)
    ensures var e, more := EstimateOf(i), Chunks(i.chunkedRemaining, i.chunkSize) * (i.maxWaiting + 1);
            var out := e.b - 16 - more;
            if i.busy then out == i.maxNew
            else
              && 0 <= out <= i.maxNew
              && (out < i.maxNew ==> 10 * out >= 11 * i.hasOut && out >= i.ema)
              && (out <= i.ema || 10 * (out - 1) < 11 * i.hasOut)
    ensures EstimateOf(i.(busy := false)).b <= EstimateOf(i.(busy := true)).b
  {
    Arith.DivMod(11 * i.hasOut + 9, 10);
  }

  // ---- the peak ------------------------------------------------------------------------------------------

  function SumA(es: seq<Estimate>): nat {
    if es == [] then 0 else SumA(es[..|es| - 1]) + es[|es| - 1].a
  }

  function SumB(es: seq<Estimate>): nat {
    if es == [] then 0 else SumB(es[..|es| - 1]) + es[|es| - 1].b
  }

  /** Longest first, arrivals kept in order among equals. */
  function Insert(q: seq<Estimate>, e: Estimate): (r: seq<Estimate>)
    ensures multiset(r) == multiset(q) + multiset{e}
  {
    if q == [] || q[|q| - 1].b >= e.b then q + [e]
    else
      assert q == q[..|q| - 1] + [q[|q| - 1]];
      Insert(q[..|q| - 1], e) + [q[|q| - 1]]
  }

  function Longest(es: seq<Estimate>): (r: seq<Estimate>)
    ensures multiset(r) == multiset(es)
  {
    if es == [] then []
    else
      assert es == es[..|es| - 1] + [es[|es| - 1]];
      Insert(Longest(es[..|es| - 1]), es[|es| - 1])
  }

  /** The running maximum over the sorted list. */
  function Running(s: seq<Estimate>): nat {
    if s == [] then 0 else Most(Running(s[..|s| - 1]), s[|s| - 1].b * |s| + SumA(s))
  }

  function Peak(es: seq<Estimate>): nat {
    Running(Longest(es))
  }

  method PeakTokens(es: seq<Estimate>) returns (peak: nat)
    ensures peak == Peak(es)
  {
    var sorted, cur, i := Longest(es), 0, 0;
    peak := 0;
    while i < |sorted|
      invariant i <= |sorted| && cur == SumA(sorted[..i]) && peak == Running(sorted[..i])
    {
      assert sorted[..i + 1][..i] == sorted[..i];
      cur := cur + sorted[i].a;
      peak := Most(peak, sorted[i].b * (i + 1) + cur);
      i := i + 1;
    }
    assert sorted[..i] == sorted;
  }

  /** One estimate's part of the footprint. */
  function Part(e: Estimate, t: nat): nat {
    if e.b >= t then e.a + t else 0
  }

  /** Tokens held when everybody has received `t` more, those with fewer to come having left. */
  function Footprint(es: seq<Estimate>, t: nat): nat {
    if es == [] then 0
    else Footprint(es[..|es| - 1], t) + Part(es[|es| - 1], t)
  }

  ghost predicate Desc(s: seq<Estimate>) {
    forall i, j :: 0 <= i < j < |s| ==> s[i].b >= s[j].b
  }

  lemma {:induction false} InsertDesc(q: seq<Estimate>, e: Estimate)
    requires Desc(q)
    ensures Desc(Insert(q, e)) && |Insert(q, e)| == |q| + 1
    ensures forall x :: x in Insert(q, e) ==> x in q || x == e
  {
    if q != [] && q[|q| - 1].b < e.b {
      InsertDesc(q[..|q| - 1], e);
      var r := Insert(q[..|q| - 1], e);
      forall i | 0 <= i < |r|
        ensures r[i].b >= q[|q| - 1].b
      {
        assert r[i] in r;
      }
    }
  }

  lemma {:induction false} LongestDesc(es: seq<Estimate>)
    ensures Desc(Longest(es))
  {
    if es != [] {
      LongestDesc(es[..|es| - 1]);
      InsertDesc(Longest(es[..|es| - 1]), es[|es| - 1]);
    }
  }

  /** Sums and footprints do not depend on the order. */
  lemma {:induction false} InsertSums(q: seq<Estimate>, e: Estimate, t: nat)
    ensures SumA(Insert(q, e)) == SumA(q) + e.a && SumB(Insert(q, e)) == SumB(q) + e.b
    ensures Footprint(Insert(q, e), t) == Footprint(q, t) + Part(e, t)
  {
    if q == [] || q[|q| - 1].b >= e.b {
      assert (q + [e])[..|q|] == q;
    } else {
      InsertSums(q[..|q| - 1], e, t);
      var r := Insert(q[..|q| - 1], e);
      assert (r + [q[|q| - 1]])[..|r|] == r;
    }
  }

  lemma {:induction false} LongestSums(es: seq<Estimate>, t: nat)
    ensures SumA(Longest(es)) == SumA(es) && SumB(Longest(es)) == SumB(es) && Footprint(Longest(es), t) == Footprint(es, t)
  {
    if es != [] {
      LongestSums(es[..|es| - 1], t);
      InsertSums(Longest(es[..|es| - 1]), es[|es| - 1], t);
    }
  }

  lemma {:induction false} AllStay(s: seq<Estimate>, t: nat)
    requires forall i :: 0 <= i < |s| ==> s[i].b >= t
    ensures Footprint(s, t) == SumA(s) + |s| * t
  {
    if s != [] {
      AllStay(s[..|s| - 1], t);
      assert |s| * t == (|s| - 1) * t + t;
    }
  }

  lemma {:induction false} FootprintBound(s: seq<Estimate>, t: nat)
    requires Desc(s)
    ensures Footprint(s, t) <= Running(s)
  {
    if s != [] {
      var last := s[|s| - 1];
      if last.b >= t {
        AllStay(s, t);
        Arith.MulMono(t, last.b, |s|);
      } else {
        FootprintBound(s[..|s| - 1], t);
      }
    }
  }

  lemma {:induction false} FootprintReaches(s: seq<Estimate>) returns (t: nat)
    requires Desc(s)
    ensures Footprint(s, t) == Running(s)
  {
    t := 0;
    if s != [] {
      var prior, last := s[..|s| - 1], s[|s| - 1];
      if Running(s) == last.b * |s| + SumA(s) {
        t := last.b;
        AllStay(s, t);
      } else {
        t := FootprintReaches(prior);
        FootprintBound(s, t);
      }
    }
  }

  /** The formula is the true peak: no moment holds more, and some moment holds that much. */
  lemma PeakIsFootprint(es: seq<Estimate>)
    ensures forall t :: Footprint(es, t) <= Peak(es)
    ensures exists t :: Footprint(es, t) == Peak(es)
  {
    LongestDesc(es);
    forall t
      ensures Footprint(es, t) <= Peak(es)
    {
      LongestSums(es, t);
      FootprintBound(Longest(es), t);
    }
    var t := FootprintReaches(Longest(es));
    LongestSums(es, t);
  }

  lemma FootprintAdds(es: seq<Estimate>, e: Estimate, t: nat)
    ensures Footprint(es + [e], t) == Footprint(es, t) + Part(e, t)
  {
    assert (es + [e])[..|es|] == es;
  }

  lemma {:induction false} FootprintJoins(es: seq<Estimate>, more: seq<Estimate>, t: nat)
    ensures Footprint(es + more, t) == Footprint(es, t) + Footprint(more, t)
  {
    hide Part;
    if more == [] {
      assert es + more == es;
    } else {
      var prior, last := more[..|more| - 1], more[|more| - 1];
      assert more == prior + [last] && es + more == (es + prior) + [last];
      FootprintJoins(es, prior, t);
      FootprintAdds(es + prior, last, t);
      FootprintAdds(prior, last, t);
    }
  }

  lemma WithoutLess(es: seq<Estimate>, i: nat, t: nat)
    requires i < |es|
    ensures Footprint(es[..i] + es[i + 1..], t) <= Footprint(es, t)
  {
    hide Footprint;
    FootprintJoins(es[..i], es[i + 1..], t);
    assert es == (es[..i] + [es[i]]) + es[i + 1..];
    FootprintJoins(es[..i] + [es[i]], es[i + 1..], t);
    FootprintAdds(es[..i], es[i], t);
  }

  /** Whoever leaves, the peak of the others is not larger. */
  lemma PeakShrinks(es: seq<Estimate>, i: nat)
    requires i < |es|
    ensures Peak(es[..i] + es[i + 1..]) <= Peak(es)
  {
    hide Peak, Footprint;
    var rest := es[..i] + es[i + 1..];
    PeakIsFootprint(es);
    PeakIsFootprint(rest);
    var t :| Footprint(rest, t) == Peak(rest);
    WithoutLess(es, i, t);
  }

  // ---- the peak against the totals -------------------------------------------------------------------------

  lemma {:induction false} ShortestTimes(s: seq<Estimate>, b: nat)
    requires forall i :: 0 <= i < |s| ==> s[i].b >= b
    ensures b * |s| <= SumB(s)
  {
    if s != [] {
      ShortestTimes(s[..|s| - 1], b);
      assert b * |s| == b * (|s| - 1) + b;
    }
  }

  lemma {:induction false} RunningTotals(s: seq<Estimate>)
    requires Desc(s)
    ensures SumA(s) <= Running(s) <= SumA(s) + SumB(s)
  {
    if s != [] {
      RunningTotals(s[..|s| - 1]);
      ShortestTimes(s, s[|s| - 1].b);
    }
  }

  /** The peak lies between the first sum and both. */
  lemma PeakTotals(es: seq<Estimate>)
    ensures SumA(es) <= Peak(es) <= SumA(es) + SumB(es)
  {
    LongestDesc(es);
    LongestSums(es, 0);
    RunningTotals(Longest(es));
  }

  lemma Single(e: Estimate)
    ensures SumA([e]) == e.a && SumB([e]) == e.b
  {
    assert [e][..0] == [];
    assert SumA([]) == 0 && SumB([]) == 0;
  }

  // ---- the gates -------------------------------------------------------------------------------------------

  datatype Gate = Gate(totalPages: nat, pageSize: nat, maxReqs: nat, batchTokens: nat, multiplier: nat)

  datatype Verdict = Admitted | PeakBudget | TooManyRequests | FirstChunkSum

  /** The gates in the order they are tried. */
  function CheckAdmission(working: seq<Estimate>, first: Option<nat>, chunkSum: nat, busy: bool, g: Gate): Verdict {
    var most := g.totalPages * g.pageSize;
    if |working| > g.maxReqs then TooManyRequests
    else if busy && SumA(working) + SumB(working) > most then PeakBudget
    else if !busy && (SumA(working) > most || SumB(working) > most) then PeakBudget
    else if Peak(working) > most then PeakBudget
    else if first.Some? && chunkSum + first.value > g.batchTokens * g.multiplier then FirstChunkSum
    else Admitted
  }

  /** What the gates come to.  When busy the totals decide and the peak never denies anything; when
      not, the peak decides together with the total of what is to come. */
  lemma AdmittedIff(working: seq<Estimate>, first: Option<nat>, chunkSum: nat, busy: bool, g: Gate)
    ensures CheckAdmission(working, first, chunkSum, busy, g) == Admitted
       <==> && |working| <= g.maxReqs
            && (if busy then SumA(working) + SumB(working) <= g.totalPages * g.pageSize
                else Peak(working) <= g.totalPages * g.pageSize && SumB(working) <= g.totalPages * g.pageSize)
            && (first.Some? ==> chunkSum + first.value <= g.batchTokens * g.multiplier)
  {
    PeakTotals(working);
  }

  /** Which gate a denial names: the number of requests first, the chunk sum only when all else
      would have let it pass. */
  lemma DeniedBy(working: seq<Estimate>, first: Option<nat>, chunkSum: nat, busy: bool, g: Gate)
    ensures var v := CheckAdmission(working, first, chunkSum, busy, g);
            && (v == TooManyRequests <==> |working| > g.maxReqs)
            && (v == FirstChunkSum <==> v != Admitted && CheckAdmission(working, None, chunkSum, busy, g) == Admitted)
  {
  }

  /** The totals are not dominated by the peak: two requests can pass the one and fail the other,
      busy or not. */
  lemma TotalsDecide()
    ensures var es := [Estimate(1, 6), Estimate(1, 3)];
            && Peak(es) == 8 && SumA(es) + SumB(es) == 11 && SumB(es) == 9
            && forall busy :: CheckAdmission(es, None, 0, busy, Gate(8, 1, 2, 0, 0)) == PeakBudget
  {
    var a, b := Estimate(1, 6), Estimate(1, 3);
    assert [a, b][..1] == [a] && [a][..0] == [];
    assert Longest([a]) == [a];
    assert Longest([a, b]) == [a, b];
    assert SumA([a]) == 1 && SumB([a]) == 6 && Running([a]) == 7;
    assert SumA([a, b]) == 2;
    assert Running([a, b]) == 8;
  }

  /** Nor are they enough when not busy: one request can fit both totals and exceed the peak. */
  lemma PeakDecides()
    ensures var es := [Estimate(5, 5)];
            && SumA(es) == 5 && SumB(es) == 5 && Peak(es) == 10
            && CheckAdmission(es, None, 0, false, Gate(9, 1, 1, 0, 0)) == PeakBudget
  {
    var a := Estimate(5, 5);
    Single(a);
    assert [a][..0] == [];
    assert Longest([a]) == [a];
    assert Running([a]) == 10;
  }
}
