/** The executor's operations on its state: the singleton scheme and the page pool. */
module ExecSteps {
  import opened Transformer
  import opened PagedKv
  import opened Requests
  import opened SchedState

  // ---- page pool -------------------------------------------------------------------------

  /** `free`: one reference less on every page of a segment. */
  function DropRefs(refs: seq<nat>, base: nat, n: nat): (r: seq<nat>)
    ensures |r| == |refs|
  {
    seq(|refs|, p requires 0 <= p < |refs| =>
      if base <= p < base + n && refs[p] > 0 then refs[p] - 1 else refs[p])
  }

  /** A fresh segment: reference count 1 on every page. */
  function TakeRefs(refs: seq<nat>, base: nat, n: nat): (r: seq<nat>)
    ensures |r| == |refs|
  {
    seq(|refs|, p requires 0 <= p < |refs| => if base <= p < base + n then 1 else refs[p])
  }

  /** `ref_` / `unref` of a cached prefix run, `n` pages in every layer. */
  ghost function RefRun(dev: Dev, refs: seq<nat>, base: nat, n: nat): (r: seq<nat>)
    ensures |r| == |refs|
  {
    seq(|refs|, p requires 0 <= p < |refs| => if dev.InRun(base, n, p) then refs[p] + 1 else refs[p])
  }

  ghost function UnrefRun(dev: Dev, refs: seq<nat>, base: nat, n: nat): (r: seq<nat>)
    ensures |r| == |refs|
  {
    seq(|refs|, p requires 0 <= p < |refs| =>
      if dev.InRun(base, n, p) && refs[p] > 0 then refs[p] - 1 else refs[p])
  }

  // ---- singleton scheme --------------------------------------------------------------------

  ghost function FlushTo(c: Cfg, x: Exec, base: nat, kvLen: nat): (r: Exec)
    requires ExecOk(c, x) && base + c.W() <= c.kvPages && kvLen <= c.dev.pp * BLOCK
    ensures ExecOk(c, r) && r.single == None && r.engine == x.engine && r.refs == x.refs
  {
    c.dev.WindowRunFits(c.kvPages, base, 0, DivUp(kvLen));
    c.dev.WindowRunFits(c.W(), 0, 0, DivUp(kvLen));
    x.(store := c.dev.Copied(x.store, x.engine, base, 0, DivUp(kvLen), c.dev.m.nLayer), single := None)
  }

  /** Move the singleton's KV into its segment. */
  ghost function Flush(c: Cfg, x: Exec): (r: Exec)
    requires ExecOk(c, x)
    ensures ExecOk(c, r) && r.single == None && r.engine == x.engine && r.refs == x.refs
  {
    if x.single.None? then x else FlushTo(c, x, x.single.value.base, x.single.value.kvLen)
  }

  function DropSingle(x: Exec, id: Id): (r: Exec) {
    if x.single.Some? && x.single.value.id == id then x.(single := None) else x
  }

  ghost function PrefillOp(c: Cfg, x: Exec, ids: seq<Token>): (r: Exec)
    requires ExecOk(c, x) && |ids| <= c.dev.pp * BLOCK
    ensures ExecOk(c, r) && r.single == None && r.refs == x.refs && r.store == Flush(c, x).store
  {
    var f := Flush(c, x);
    f.(engine := c.dev.Prefilled(f.engine, ids, c.dev.m.nLayer).0)
  }

  /** Decode-step the tokens `[from, upto)` of `toks` one at a time in the engine pool. */
  function StepTokens(dev: Dev, mem: Mem, toks: seq<Token>, from: nat, upto: nat): (r: Mem)
    requires dev.Fits(mem, 0) && from <= upto <= |toks| && upto <= dev.pp * BLOCK
    ensures |r| == |mem|
    decreases upto
  {
    if from == upto then mem
    else dev.Step(StepTokens(dev, mem, toks, from, upto - 1), 0, toks[upto - 1], upto - 1, upto).0
  }

  ghost function PrefixHitOp(c: Cfg, x: Exec, base: nat, pages: nat, prompt: seq<Token>): (r: Exec)
    requires ExecOk(c, x) && base + c.W() <= c.kvPages && pages <= c.dev.pp
    requires pages * BLOCK <= |prompt| <= c.dev.pp * BLOCK
    ensures ExecOk(c, r) && r.single == None && r.refs == x.refs && r.store == Flush(c, x).store
  {
    var f := Flush(c, x);
    c.dev.WindowRunFits(c.kvPages, base, 0, pages);
    c.dev.WindowRunFits(c.W(), 0, 0, pages);
    var e := c.dev.Copied(f.engine, f.store, 0, base, pages, c.dev.m.nLayer);
    f.(engine := StepTokens(c.dev, e, prompt, pages * BLOCK, |prompt|))
  }

  ghost function CommitOp(c: Cfg, x: Exec, base: nat, start: nat, len: nat): (r: Exec)
    requires ExecOk(c, x) && base + c.W() <= c.kvPages && start / BLOCK + DivUp(len) <= c.dev.pp
    ensures ExecOk(c, r) && r.single == x.single && r.engine == x.engine && r.refs == x.refs
  {
    c.dev.WindowRunFits(c.kvPages, base, start / BLOCK, DivUp(len));
    c.dev.WindowRunFits(c.W(), 0, 0, DivUp(len));
    x.(store := c.dev.Copied(x.store, x.engine, base + start / BLOCK, 0, DivUp(len), c.dev.m.nLayer))
  }

  ghost function AdoptOp(c: Cfg, x: Exec, id: Id, base: nat, start: nat, len: nat): (r: Exec)
    requires ExecOk(c, x) && base + c.W() <= c.kvPages && start + len <= c.dev.pp * BLOCK
    ensures ExecOk(c, r) && r.store == x.store && r.refs == x.refs
    ensures r.single == Some(Single(id, base, start + len))
  {
    c.dev.WindowRunFits(c.kvPages, base, 0, DivUp(start));
    c.dev.WindowRunFits(c.W(), 0, 0, DivUp(start));
    var e := if start > 0 then c.dev.Copied(x.engine, x.store, 0, base, DivUp(start), c.dev.m.nLayer) else x.engine;
    x.(engine := e, single := Some(Single(id, base, start + len)))
  }

  // ---- decode ------------------------------------------------------------------------------

  datatype ExecReq = ExecReq(id: Id, token: Token, pos: nat, kvLen: nat, base: nat)

  ghost predicate BatchOk(c: Cfg, batch: seq<ExecReq>) {
    forall i :: 0 <= i < |batch| ==> batch[i].base + c.W() <= AnchorBase(c) && batch[i].pos < c.dev.pp * BLOCK
                                     && 0 < batch[i].kvLen <= c.dev.pp * BLOCK
  }

  /** The batch handed to the engine: the anchor rides along as a phantom request. */
  function WithAnchor(c: Cfg, batch: seq<ExecReq>): (r: seq<Row>)
    ensures |r| == |batch| + 1
  {
    seq(|batch|, i requires 0 <= i < |batch| => Row(batch[i].token, batch[i].pos, batch[i].kvLen, batch[i].base))
    + [Row(0, 0, 1, AnchorBase(c))]
  }

  lemma WithAnchorOk(c: Cfg, batch: seq<ExecReq>, mem: Mem)
    requires BatchOk(c, batch) && |mem| == c.kvPages
    ensures c.dev.RowsOk(mem, WithAnchor(c, batch))
  {
    var rows := WithAnchor(c, batch);
    forall b | 0 <= b < |rows|
      ensures c.dev.RowOk(mem, rows[b])
    {
      if b < |batch| {
        assert batch[b].base + c.W() <= AnchorBase(c);
      }
    }
  }

  /** A lone request decodes in the engine pool, after copying its segment there unless it is
      the singleton already. */
  ghost function DecodeOne(c: Cfg, x: Exec, q: ExecReq): (r: (Exec, Vec))
    requires ExecOk(c, x) && BatchOk(c, [q])
    ensures ExecOk(c, r.0) && r.0.refs == x.refs && r.0.store == x.store
    ensures r.0.single == Some(Single(q.id, q.base, q.kvLen))
  {
    assert [q][0] == q;
    c.dev.WindowRunFits(c.kvPages, q.base, 0, DivUp(q.kvLen));
    c.dev.WindowRunFits(c.W(), 0, 0, DivUp(q.kvLen));
    var e := if x.single.Some? && x.single.value.id == q.id then x.engine
             else c.dev.Copied(x.engine, x.store, 0, q.base, DivUp(q.kvLen), c.dev.m.nLayer);
    var (e', row) := c.dev.Step(e, 0, q.token, q.pos, q.kvLen);
    (x.(engine := e', single := Some(Single(q.id, q.base, q.kvLen))), row)
  }

  /** Two or more: flush, then one batch step on the shared pool; the anchor's row is
      discarded. */
  ghost function DecodeMany(c: Cfg, x: Exec, batch: seq<ExecReq>): (r: (Exec, seq<Vec>))
    requires ExecOk(c, x) && BatchOk(c, batch)
    ensures ExecOk(c, r.0) && r.0.refs == x.refs && r.0.single == None && |r.1| == |batch|
  {
    var f := Flush(c, x);
    WithAnchorOk(c, batch, f.store);
    var (mem, xs) := c.dev.Batched(f.store, WithAnchor(c, batch), c.dev.m.nLayer);
    (f.(store := mem), seq(|batch|, i requires 0 <= i < |batch| => c.dev.m.head(xs[i])))
  }

  ghost function DecodeOp(c: Cfg, x: Exec, batch: seq<ExecReq>): (r: (Exec, seq<Vec>))
    requires ExecOk(c, x) && BatchOk(c, batch) && |batch| > 0
    ensures ExecOk(c, r.0) && r.0.refs == x.refs && |r.1| == |batch|
  {
    if |batch| == 1 then
      assert batch == [batch[0]];
      var (x', row) := DecodeOne(c, x, batch[0]);
      (x', [row])
    else DecodeMany(c, x, batch)
  }

  // ---- what the operations do to KV content --------------------------------------------------

  lemma FlushToElsewhere(c: Cfg, x: Exec, base: nat, kvLen: nat)
    requires ExecOk(c, x) && base + c.W() <= c.kvPages && kvLen <= c.dev.pp * BLOCK
    ensures forall p :: 0 <= p < c.kvPages && !(base <= p < base + c.W()) ==>
              FlushTo(c, x, base, kvLen).store[p] == x.store[p]
  {
    c.dev.WindowRunFits(c.kvPages, base, 0, DivUp(kvLen));
    c.dev.WindowRunFits(c.W(), 0, 0, DivUp(kvLen));
    assert base + 0 == base;
    c.dev.CopyElsewhere(x.store, x.engine, base, 0, 0, DivUp(kvLen));
  }

  lemma FlushToHolds(c: Cfg, x: Exec, base: nat, kvLen: nat, toks: seq<Token>)
    requires ExecOk(c, x) && base + c.W() <= c.kvPages && kvLen <= c.dev.pp * BLOCK
    requires c.dev.Holds(x.engine, 0, toks, kvLen)
    ensures c.dev.Holds(FlushTo(c, x, base, kvLen).store, base, toks, kvLen)
  {
    c.dev.WindowRunFits(c.kvPages, base, 0, DivUp(kvLen));
    c.dev.WindowRunFits(c.W(), 0, 0, DivUp(kvLen));
    c.dev.CopyHolds(x.store, x.engine, base, 0, DivUp(kvLen), toks, kvLen);
  }

  lemma PrefillOpHolds(c: Cfg, x: Exec, ids: seq<Token>)
    requires ExecOk(c, x) && |ids| <= c.dev.pp * BLOCK
    ensures c.dev.Holds(PrefillOp(c, x, ids).engine, 0, ids, |ids|)
  {
    c.dev.PrefillHolds(x.engine, ids);
  }

  lemma {:induction false} StepTokensHolds(dev: Dev, mem: Mem, toks: seq<Token>, from: nat, upto: nat)
    requires from <= upto <= |toks| && upto <= dev.pp * BLOCK && dev.Holds(mem, 0, toks, from)
    ensures dev.Holds(StepTokens(dev, mem, toks, from, upto), 0, toks, upto)
    decreases upto
  {
    if from != upto {
      StepTokensHolds(dev, mem, toks, from, upto - 1);
      var before := StepTokens(dev, mem, toks, from, upto - 1);
      var t := toks[..upto];
      assert t[..upto - 1] == toks[..upto - 1];
      dev.HoldsPrefix(before, 0, toks, t, upto - 1);
      dev.StepHolds(before, 0, t);
      dev.HoldsPrefix(dev.Step(before, 0, t[upto - 1], upto - 1, upto).0, 0, t, toks, upto);
    }
  }

  /** A hit on a run that holds `key` leaves the engine pool as a full prefill of the prompt
      would. */
  lemma PrefixHitHolds(c: Cfg, x: Exec, base: nat, pages: nat, prompt: seq<Token>, key: Key)
    requires ExecOk(c, x) && base + c.W() <= c.kvPages && pages <= c.dev.pp
    requires pages * BLOCK <= |prompt| <= c.dev.pp * BLOCK
    requires pages * BLOCK <= |key| && key[..pages * BLOCK] == prompt[..pages * BLOCK]
    requires c.dev.Holds(Flush(c, x).store, base, key, |key|)
    ensures c.dev.Holds(PrefixHitOp(c, x, base, pages, prompt).engine, 0, prompt, |prompt|)
  {
    var f, n := Flush(c, x), pages * BLOCK;
    c.dev.WindowRunFits(c.kvPages, base, 0, pages);
    c.dev.WindowRunFits(c.W(), 0, 0, pages);
    assert c.dev.Holds(f.store, base, key, n);
    c.dev.CopyHolds(f.engine, f.store, 0, base, pages, key, n);
    var e := c.dev.Copied(f.engine, f.store, 0, base, pages, c.dev.m.nLayer);
    c.dev.HoldsPrefix(e, 0, key, prompt, n);
    StepTokensHolds(c.dev, e, prompt, n, |prompt|);
  }

  lemma CommitWhole(c: Cfg, x: Exec, base: nat, toks: seq<Token>)
    requires ExecOk(c, x) && base + c.W() <= c.kvPages && |toks| <= c.dev.pp * BLOCK
    requires c.dev.Holds(x.engine, 0, toks, |toks|)
    ensures c.dev.Holds(CommitOp(c, x, base, 0, |toks|).store, base, toks, |toks|)
  {
    FlushToHolds(c, x, base, |toks|, toks);
    assert base + 0 / BLOCK == base;
  }

  lemma CommitElsewhere(c: Cfg, x: Exec, base: nat, start: nat, len: nat)
    requires ExecOk(c, x) && base + c.W() <= c.kvPages && start / BLOCK + DivUp(len) <= c.dev.pp
    ensures forall p :: 0 <= p < c.kvPages && !(base <= p < base + c.W()) ==>
              CommitOp(c, x, base, start, len).store[p] == x.store[p]
  {
    var off, n := start / BLOCK, DivUp(len);
    c.dev.WindowRunFits(c.kvPages, base, off, n);
    c.dev.WindowRunFits(c.W(), 0, 0, n);
    c.dev.CopyElsewhere(x.store, x.engine, base, off, 0, n);
  }

  lemma DecodeOneHolds(c: Cfg, x: Exec, q: ExecReq, toks: seq<Token>)
    requires ExecOk(c, x) && BatchOk(c, [q])
    requires 0 < |toks| == q.kvLen && q.pos == |toks| - 1 && q.token == toks[|toks| - 1]
    requires if x.single.Some? && x.single.value.id == q.id then c.dev.Holds(x.engine, 0, toks, |toks| - 1)
             else c.dev.Holds(x.store, q.base, toks, |toks| - 1)
    ensures var (x', row) := DecodeOne(c, x, q);
            c.dev.Holds(x'.engine, 0, toks, |toks|) && row == Logits(c.dev.m, toks)
  {
    assert [q][0] == q;
    c.dev.WindowRunFits(c.kvPages, q.base, 0, DivUp(q.kvLen));
    c.dev.WindowRunFits(c.W(), 0, 0, DivUp(q.kvLen));
    var e := if x.single.Some? && x.single.value.id == q.id then x.engine
             else c.dev.Copied(x.engine, x.store, 0, q.base, DivUp(q.kvLen), c.dev.m.nLayer);
    if !(x.single.Some? && x.single.value.id == q.id) {
      c.dev.CopyHolds(x.engine, x.store, 0, q.base, DivUp(q.kvLen), toks, |toks| - 1);
    }
    c.dev.StepHolds(e, 0, toks);
    hide Dev.Holds, Dev.Copied, Dev.Stepped;
  }

  ghost predicate Spread(c: Cfg, batch: seq<ExecReq>) {
    forall i, j :: 0 <= i < j < |batch| ==> c.dev.Apart(batch[i].base, batch[j].base)
  }

  lemma SpreadRows(c: Cfg, batch: seq<ExecReq>)
    requires BatchOk(c, batch) && Spread(c, batch)
    ensures c.dev.RowsApart(WithAnchor(c, batch))
  {
    var rows := WithAnchor(c, batch);
    forall a, b | 0 <= a < b < |rows|
      ensures c.dev.Apart(rows[a].base, rows[b].base)
    {
      if b < |batch| {
        assert c.dev.Apart(batch[a].base, batch[b].base);
      } else {
        assert batch[a].base + c.W() <= AnchorBase(c);
      }
    }
  }

  lemma DecodeManyHolds(c: Cfg, x: Exec, batch: seq<ExecReq>, i: nat, toks: seq<Token>)
    requires ExecOk(c, x) && BatchOk(c, batch) && Spread(c, batch) && i < |batch|
    requires var q := batch[i]; 0 < |toks| == q.kvLen && q.pos == |toks| - 1 && q.token == toks[|toks| - 1]
    requires c.dev.Holds(Flush(c, x).store, batch[i].base, toks, |toks| - 1)
    ensures var (x', rows) := DecodeMany(c, x, batch);
            c.dev.Holds(x'.store, batch[i].base, toks, |toks|) && rows[i] == Logits(c.dev.m, toks)
  {
    var f := Flush(c, x);
    WithAnchorOk(c, batch, f.store);
    SpreadRows(c, batch);
    c.dev.BatchHolds(f.store, WithAnchor(c, batch), i, toks);
  }

  lemma DecodeManyElsewhere(c: Cfg, x: Exec, batch: seq<ExecReq>, p: nat)
    requires ExecOk(c, x) && BatchOk(c, batch) && p < AnchorBase(c)
    requires forall i :: 0 <= i < |batch| ==> !(batch[i].base <= p < batch[i].base + c.W())
    ensures DecodeMany(c, x, batch).0.store[p] == Flush(c, x).store[p]
  {
    var f := Flush(c, x);
    WithAnchorOk(c, batch, f.store);
    var rows := WithAnchor(c, batch);
    forall r | 0 <= r < |rows|
      ensures !(rows[r].base <= p < rows[r].base + c.W())
    {
      if r < |batch| {
        assert !(batch[r].base <= p < batch[r].base + c.W());
      }
    }
    c.dev.BatchElsewhere(f.store, rows, c.dev.m.nLayer, p);
  }
}
