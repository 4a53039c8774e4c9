/** The engine's side of the KV memory: its own pool, and the three calls that write KV.  Each
    works layer by layer in place and is proved against the value-level step, prefill and
    batch of `PagedKv`. */
module EngineKv {
  import opened Transformer
  import opened PagedKv
  import opened Requests

  /** A device KV buffer. */
  class KvStore {
    var pages: Mem

    constructor (mem: Mem)
      ensures pages == mem
    {
      pages := mem;
    }
  }

  class Engine {
    const dev: Dev
    const kv: KvStore

    constructor (dev: Dev, kv: KvStore)
      ensures this.dev == dev && this.kv == kv
    {
      this.dev, this.kv := dev, kv;
    }

    ghost predicate Valid()
      reads kv
    {
      |kv.pages| == dev.Window()
    }

    /** One token through every layer: write its cell, then attend over `[0, kvLen)`. */
    method Step(tok: Token, pos: nat, kvLen: nat) returns (logits: Vec)
      requires Valid() && pos < dev.pp * BLOCK && kvLen <= dev.pp * BLOCK
      modifies kv
      ensures Valid() && (kv.pages, logits) == dev.Step(old(kv.pages), 0, tok, pos, kvLen)
    {
      var x := dev.m.embed(tok);
      var li := 0;
      while li < dev.m.nLayer
        invariant li <= dev.m.nLayer && Valid()
        invariant (kv.pages, x) == dev.Stepped(old(kv.pages), 0, tok, pos, kvLen, li)
      {
        kv.pages := dev.SetCell(kv.pages, 0, li, pos, dev.m.kv(li, x, pos));
        x := dev.m.block(li, x, pos, dev.View(kv.pages, 0, li, kvLen));
        li := li + 1;
      }
      logits := dev.m.head(x);
    }

    /** A chunk through every layer, positions from 0: all keys/values of a layer are written
        before its residuals are updated. */
    method PrefillBatch(ids: seq<Token>)
      requires Valid() && |ids| <= dev.pp * BLOCK
      modifies kv
      ensures Valid() && kv.pages == dev.Prefilled(old(kv.pages), ids, dev.m.nLayer).0
    {
      hide Dev.Filled, Dev.LayerKvs, Dev.Attended;
      var xs := seq(|ids|, i requires 0 <= i < |ids| => dev.m.embed(ids[i]));
      var li := 0;
      while li < dev.m.nLayer
        invariant li <= dev.m.nLayer && Valid() && |xs| == |ids|
        invariant (kv.pages, xs) == dev.Prefilled(old(kv.pages), ids, li)
      {
        var kvs := dev.LayerKvs(li, xs);
        WriteLayer(li, kvs);
        xs := AttendChunk(li, xs, kvs);
        li := li + 1;
      }
    }

    method AttendChunk(li: nat, xs: seq<Vec>, kvs: seq<KV>) returns (ys: seq<Vec>)
      requires |kvs| == |xs|
      ensures ys == dev.Attended(li, xs, kvs)
    {
      ys := [];
      var i := 0;
      while i < |xs|
        invariant i <= |xs| && |ys| == i
        invariant forall k :: 0 <= k < i ==> ys[k] == dev.m.block(li, xs[k], k, kvs[..k + 1])
      {
        ys := ys + [dev.m.block(li, xs[i], i, kvs[..i + 1])];
        i := i + 1;
      }
    }

    method WriteLayer(li: nat, kvs: seq<KV>)
      requires Valid() && li < dev.m.nLayer && |kvs| <= dev.pp * BLOCK
      modifies kv
      ensures Valid() && kv.pages == dev.Filled(old(kv.pages), li, kvs)
    {
      var t := 0;
      while t < |kvs|
        invariant t <= |kvs| && Valid()
        invariant kv.pages == dev.Filled(old(kv.pages), li, kvs[..t])
      {
        assert kvs[..t + 1][..t] == kvs[..t];
        kv.pages := dev.SetCell(kv.pages, 0, li, t, kvs[t]);
        t := t + 1;
      }
      assert kvs[..t] == kvs;
    }

    /** What the batch step accepts of one request: a filled range and a position inside the
        segment's pages. */
    predicate InRange(row: Row) {
      0 < row.kvLen <= dev.pp * BLOCK && row.pos / BLOCK < dev.pp
    }

    method AllInRange(rows: seq<Row>) returns (ok: bool)
      ensures ok <==> forall b :: 0 <= b < |rows| ==> InRange(rows[b])
    {
      var b := 0;
      while b < |rows|
        invariant b <= |rows| && forall k :: 0 <= k < b ==> InRange(rows[k])
      {
        if !InRange(rows[b]) {
          return false;
        }
        b := b + 1;
      }
      ok := true;
    }

    /** One decode step for a batch.  A single request takes the engine's own pool, unchecked,
        and its segment is ignored; two or more run layer by layer on the shared pool, all or
        none: one request out of range refuses the batch before anything is written.  The
        segments of two or more must lie in the pool, as the caller of the unsafe kernels
        promises. */
    method BatchDecodeStep(pool: KvStore, rows: seq<Row>) returns (r: Option<seq<Vec>>)
      requires Valid() && pool != kv
      requires |rows| == 1 ==> rows[0].pos < dev.pp * BLOCK && rows[0].kvLen <= dev.pp * BLOCK
      requires |rows| > 1 ==> forall b :: 0 <= b < |rows| ==> dev.Fits(pool.pages, rows[b].base)
      modifies kv, pool
      ensures Valid() && |pool.pages| == |old(pool.pages)|
      ensures r.None? <==> rows == [] || (|rows| > 1 && exists b :: 0 <= b < |rows| && !InRange(rows[b]))
      ensures r.None? ==> kv.pages == old(kv.pages) && pool.pages == old(pool.pages)
      ensures r.Some? ==> |r.value| == |rows|
      ensures |rows| == 1 ==>
                && pool.pages == old(pool.pages)
                && (kv.pages, r.value[0]) == dev.Step(old(kv.pages), 0, rows[0].token, rows[0].pos, rows[0].kvLen)
      ensures r.Some? && |rows| > 1 ==>
                && kv.pages == old(kv.pages) && dev.RowsOk(old(pool.pages), rows)
                && var b := dev.Batched(old(pool.pages), rows, dev.m.nLayer);
                pool.pages == b.0 && r.value == seq(|rows|, i requires 0 <= i < |rows| => dev.m.head(b.1[i]))
    {
      hide Dev.Written, Dev.RowsAttended, Dev.Stepped;
      if rows == [] { return None; }
      if |rows| == 1 {
        var logits := Step(rows[0].token, rows[0].pos, rows[0].kvLen);
        return Some([logits]);
      }
      var ok := AllInRange(rows);
      if !ok { return None; }
      ghost var before := pool.pages;
      RangeIsOk(before, rows);
      var xs := seq(|rows|, b requires 0 <= b < |rows| => dev.m.embed(rows[b].token));
      var li := 0;
      while li < dev.m.nLayer
        invariant li <= dev.m.nLayer && |xs| == |rows| && |pool.pages| == |before| && kv.pages == old(kv.pages)
        invariant (pool.pages, xs) == dev.Batched(before, rows, li)
      {
        RowsStayOk(before, pool.pages, rows);
        WriteRows(pool, rows, xs, li);
        RowsStayOk(before, pool.pages, rows);
        xs := AttendRows(pool.pages, rows, xs, li);
        li := li + 1;
      }
      r := Some(seq(|rows|, i requires 0 <= i < |rows| => dev.m.head(xs[i])));
    }

    lemma RangeIsOk(mem: Mem, rows: seq<Row>)
      requires forall b :: 0 <= b < |rows| ==> dev.Fits(mem, rows[b].base)
      requires forall b :: 0 <= b < |rows| ==> InRange(rows[b])
      ensures dev.RowsOk(mem, rows)
    {
      forall b | 0 <= b < |rows|
        ensures dev.RowOk(mem, rows[b])
      {
        assert dev.Fits(mem, rows[b].base) && InRange(rows[b]);
        assert rows[b].pos < (rows[b].pos / BLOCK + 1) * BLOCK;
      }
    }

    lemma RowsStayOk(mem: Mem, mem': Mem, rows: seq<Row>)
      requires dev.RowsOk(mem, rows) && |mem'| == |mem|
      ensures dev.RowsOk(mem', rows)
    {
      assert forall b :: 0 <= b < |rows| ==> dev.RowOk(mem, rows[b]) && dev.RowOk(mem', rows[b]);
    }

    method WriteRows(pool: KvStore, rows: seq<Row>, xs: seq<Vec>, li: nat)
      requires dev.RowsOk(pool.pages, rows) && |xs| == |rows| && li < dev.m.nLayer
      modifies pool
      ensures |pool.pages| == |old(pool.pages)| && pool.pages == dev.Written(old(pool.pages), rows, xs, li, |rows|)
    {
      var b := 0;
      while b < |rows|
        invariant b <= |rows| && |pool.pages| == |old(pool.pages)|
        invariant pool.pages == dev.Written(old(pool.pages), rows, xs, li, b)
      {
        assert dev.RowOk(old(pool.pages), rows[b]);
        pool.pages := dev.SetCell(pool.pages, rows[b].base, li, rows[b].pos, dev.m.kv(li, xs[b], rows[b].pos));
        b := b + 1;
      }
    }

    method AttendRows(mem: Mem, rows: seq<Row>, xs: seq<Vec>, li: nat) returns (ys: seq<Vec>)
      requires dev.RowsOk(mem, rows) && |xs| == |rows| && li < dev.m.nLayer
      ensures ys == dev.RowsAttended(mem, rows, xs, li)
    {
      ys := [];
      var b := 0;
      while b < |rows|
        invariant b <= |rows| && |ys| == b
        invariant forall k :: 0 <= k < b ==>
                    dev.RowOk(mem, rows[k])
                    && ys[k] == dev.m.block(li, xs[k], rows[k].pos, dev.View(mem, rows[k].base, li, rows[k].kvLen))
      {
        assert dev.RowOk(mem, rows[b]);
        ys := ys + [dev.m.block(li, xs[b], rows[b].pos, dev.View(mem, rows[b].base, li, rows[b].kvLen))];
        b := b + 1;
      }
    }
  }
}
