/** What the step budget is measured in.  The pool's size is counted in pages of one layer, and a
    token takes a cell in every layer, so the count of tokens the loop budgets with is the number of
    layers times what the pages can hold. */
module Capacity {
  import opened PagedKv
  import opened Requests
  import opened SchedState
  import opened ExecSteps
  import opened SchedPrefill
  import opened SchedDecode
  import opened SchedRuns
  import opened SchedTheorems
  import opened Selection
  import opened StepBudget
  import opened Admission
  import Arith

  // ---- what live requests hold ---------------------------------------------------------------------------

  lemma {:induction false} HighestBase(segs: map<Id, nat>) returns (id: Id)
    requires segs != map[]
    ensures id in segs && forall o :: o in segs ==> segs[o] <= segs[id]
    decreases |segs|
  {
    id :| id in segs;
    var rest := segs - {id};
    if rest != map[] {
      assert |rest| < |segs| by {
        assert rest.Keys == segs.Keys - {id};
      }
      var other := HighestBase(rest);
      assert forall o :: o in segs ==> o == id || o in rest;
      id := if segs[other] > segs[id] then other else id;
    } else {
      assert forall o :: o in segs ==> o == id || o in rest;
    }
  }

  /** No two windows overlap, and all lie below the bound. */
  ghost predicate Spread(segs: map<Id, nat>, w: nat, bound: nat) {
    && (forall a, b :: a in segs && b in segs && a != b ==> segs[a] + w <= segs[b] || segs[b] + w <= segs[a])
    && forall a :: a in segs ==> segs[a] + w <= bound
  }

  /** The windows other than the highest lie below it. */
  lemma BelowHighest(segs: map<Id, nat>, w: nat, bound: nat, id: Id)
    requires Spread(segs, w, bound) && w > 0 && id in segs && forall o :: o in segs ==> segs[o] <= segs[id]
    ensures Spread(segs - {id}, w, segs[id]) && segs[id] + w <= bound
  {
  }

  lemma OneMore(n: nat, w: nat, base: nat)
    requires n > 0 && (n - 1) * w <= base
    ensures n * w <= base + w
  {
  }

  lemma OneFewer(segs: map<Id, nat>, id: Id)
    requires id in segs
    ensures |segs - {id}| == |segs| - 1
  {
    assert (segs - {id}).Keys == segs.Keys - {id};
  }

  /** Windows that lie apart below a bound fit it all together. */
  lemma {:induction false} WindowsFit(segs: map<Id, nat>, w: nat, bound: nat)
    requires Spread(segs, w, bound) && w > 0
    ensures |segs| * w <= bound
    decreases |segs|
  {
    hide Spread;
    if segs != map[] {
      var id := HighestBase(segs);
      BelowHighest(segs, w, bound, id);
      OneFewer(segs, id);
      WindowsFit(segs - {id}, w, segs[id]);
      OneMore(|segs|, w, segs[id]);
    }
  }

  lemma SegmentsFit(c: Cfg, s: Sys)
    requires Inv(c, s)
    ensures |s.segs| * c.W() <= AnchorBase(c)
  {
    forall a, b | a in s.segs && b in s.segs && a != b
      ensures s.segs[a] + c.W() <= s.segs[b] || s.segs[b] + c.W() <= s.segs[a]
    {
      SegsApart(c, s.owner, s.x.refs, s.segs, Cached(s), a, b);
    }
    WindowPositive(c);
    WindowsFit(s.segs, c.W(), AnchorBase(c));
  }

  lemma DeviceFits(c: Cfg, s: Sys, id: Id)
    requires Inv(c, s) && id in s.reqs && s.reqs[id].Live()
    ensures s.reqs[id].device <= if id in s.segs.Keys then c.maxLen else 0
  {
    assert IdOk(c, s, id);
  }

  lemma LiveBound(c: Cfg, s: Sys)
    requires Inv(c, s)
    ensures Unreturned(s.reqs, s.arrivals) <= |s.segs| * c.maxLen
  {
    forall o | o in s.reqs && s.reqs[o].Live()
      ensures s.reqs[o].device <= if o in s.segs.Keys then c.maxLen else 0
    {
      DeviceFits(c, s, o);
    }
    assert Queues(s);
    hide Inv, Queues;
    SumBound(s.reqs, s.arrivals, s.segs.Keys, c.maxLen);
    Within(Common(s.arrivals, s.segs.Keys), s.segs.Keys);
    Arith.MulMono(|Common(s.arrivals, s.segs.Keys)|, |s.segs|, c.maxLen);
  }

  /** Tokens the pages below the anchor can hold, a cell in every layer for each. */
  function CellTokens(c: Cfg): nat {
    PoolTokens(c) / c.dev.m.nLayer
  }

  /** In every reachable state what live requests have on the device fits the real cells. */
  lemma LiveFits(c: Cfg, s: Sys)
    requires Reachable(c, s)
    ensures s.dispatched >= s.returned && s.dispatched - s.returned <= CellTokens(c)
  {
    ReachableInv(c, s);
    TokensConserved(c, s);
    SegmentsFit(c, s);
    LiveBound(c, s);
    c.dev.OffIsProduct(c.dev.m.nLayer);
    hide Reachable, Inv;
    CellsCover(|s.segs|, c.dev.m.nLayer, c.dev.pp, c.maxLen, AnchorBase(c));
  }

  lemma CellsCover(held: nat, layers: nat, pp: nat, len: nat, pages: nat)
    requires layers > 0 && len <= pp * BLOCK && held * (layers * pp) <= pages
    ensures held * len <= pages * BLOCK / layers
  {
    var window := pp * BLOCK;
    Arith.MulMono(len, window, held);
    assert held * len <= held * window;
    Arith.MulMono(held * (layers * pp), pages, BLOCK);
    assert held * (layers * pp) * BLOCK == held * window * layers by {
      assert held * (layers * pp) * BLOCK == held * ((layers * pp) * BLOCK);
      assert (layers * pp) * BLOCK == layers * (pp * BLOCK);
      assert held * (layers * window) == held * window * layers;
    }
    Quotient(held * window, layers, pages * BLOCK);
  }

  lemma Quotient(a: nat, d: nat, b: nat)
    requires d > 0 && a * d <= b
    ensures a <= b / d
  {
    Arith.MulDiv(a, d);
    Arith.DivMono(a * d, b, d);
  }

  // ---- the budget against them ---------------------------------------------------------------------------

  /** Tokens for which there really are free cells. */
  function FreeCells(c: Cfg, s: Sys): nat {
    Effective(CellTokens(c) + s.returned, s.dispatched)
  }

  /** The budget never asks for more than the free cells can take exactly when it is 0 or the ended
      requests on the count make up for the surplus of the unit: always with one layer, and with
      more only once all but that share of the count is gone. */
  lemma BudgetFitsIff(c: Cfg, s: Sys)
    requires Reachable(c, s)
    ensures FreeCells(c, s) == CellTokens(c) - (s.dispatched - s.returned)
    ensures Budget(c, s) <= FreeCells(c, s)
       <==> Budget(c, s) == 0 || Retired(s.reqs, s.arrivals) >= PoolTokens(c) - CellTokens(c)
  {
    LiveFits(c, s);
    BudgetRightIff(c, s);
    hide Reachable, Retired, Usage, CellTokens, PoolTokens;
  }

  /** With one layer the two units are the same. */
  lemma OneLayerFits(c: Cfg, s: Sys)
    requires Reachable(c, s) && c.dev.m.nLayer == 1
    ensures CellTokens(c) == PoolTokens(c) && Budget(c, s) <= FreeCells(c, s)
  {
    assert CellTokens(c) == PoolTokens(c);
    hide Reachable;
    BudgetFitsIff(c, s);
  }
}
