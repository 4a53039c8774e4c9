/** State of the continuous-batching scheduler and its KV placement, as a value. */
module SchedState {
  import opened Transformer
  import opened PagedKv
  import opened Requests

  type Id = nat
  type Key = seq<Token>

  /** Blocks a prompt needs before its prefix is cached. */
  const MIN_BLOCKS: nat := 2

  datatype Config = Config(dev: Dev, sample: (nat, seq<Vec>) -> Token, kvPages: nat, maxLen: nat) {
    predicate Good() {
      dev.m.nLayer > 0 && dev.pp > 0 && 0 < maxLen <= dev.pp * BLOCK && dev.Window() <= kvPages
    }

    function Net(): Net {
      Requests.Net(dev.m, sample)
    }

    /** Pages of one request window. */
    function W(): nat {
      dev.Window()
    }
  }

  /** `load` refuses a pool smaller than one window. */
  type Cfg = c: Config | c.Good()
    witness Config(Dev(Model(1, t => [], (l, x, p) => KV([], []), (l, x, p, w) => [], x => []), 1),
                   (p, r) => 0, 1, 32)

  /** First page of the anchor, the top window of the pool. */
  function AnchorBase(c: Cfg): nat {
    c.kvPages - c.W()
  }

  // ---- executor --------------------------------------------------------------------------

  /** The request whose KV lives in the engine's own pool. */
  datatype Single = Single(id: Id, base: nat, kvLen: nat)

  datatype Exec = Exec(engine: Mem, store: Mem, refs: seq<nat>, single: Option<Single>)

  ghost predicate ExecOk(c: Cfg, x: Exec) {
    && |x.engine| == c.W()
    && |x.store| == c.kvPages && |x.refs| == c.kvPages
    && (x.single.Some? ==> x.single.value.base + c.W() <= c.kvPages && x.single.value.kvLen <= c.dev.pp * BLOCK)
  }

  // ---- loop ------------------------------------------------------------------------------

  /** `rows` is the sampler chain's state: every logits row it has been fed.  `genBase` is
      the number of tokens already generated when the current prefill started. */
  datatype Meta = Meta(job: Job, cur: Token, generated: seq<Token>, rows: seq<Vec>, genBase: nat)

  /** The tokens whose KV a request owns. */
  function Hist(e: Meta): seq<Token>
    requires e.genBase <= |e.generated|
  {
    e.job.prompt + e.generated[e.genBase..]
  }

  /** What the outside sees of a request: frames received, and segments taken and returned. */
  datatype Client = Client(job: Job, emitted: seq<Token>, done: bool, restarted: bool, allocs: nat, frees: nat)

  /** Who holds a physical page. */
  datatype Owner = Free | Anchor | Seg(id: Id) | Run(key: Key)

  datatype Sys = Sys(
    x: Exec,
    reqs: map<Id, Req>,
    meta: map<Id, Meta>,
    waiting: seq<Id>,
    decoding: seq<Id>,
    segs: map<Id, nat>,
    cache: Option<map<Key, nat>>,
    dispatched: nat,
    returned: nat,
    // history
    arrivals: seq<Id>,
    clients: map<Id, Client>,
    owner: seq<Owner>,
    chunked: bool)

  function Cached(s: Sys): map<Key, nat> {
    if s.cache.Some? then s.cache.value else map[]
  }

  ghost predicate NoDups(q: seq<Id>) {
    forall i, j :: 0 <= i < j < |q| ==> q[i] != q[j]
  }

  /** The serving layer's checks: a prompt, a positive token limit, and room for both in the
      context. */
  predicate JobOk(c: Cfg, job: Job) {
    0 < |job.prompt| && 0 < job.maxTokens && |job.prompt| + job.maxTokens <= c.maxLen
  }

  ghost predicate ReqOk(c: Cfg, r: Req, m: Option<Meta>, job: Job, inWaiting: bool, inDecoding: bool, hasSeg: bool) {
    if !r.Live() then m.None? && !inWaiting && !inDecoding && !hasSeg
    else
      && m.Some?
      && var e := m.value;
      && e.job == job && JobOk(c, job)
      && r.stop.patterns == NonEmpty(e.job.stop) && r.eos == e.job.eos
      && e.genBase <= |e.generated|
      && match r.state
         case Chunked =>
           && inWaiting && !inDecoding && hasSeg
           && r.promptLen == |e.job.prompt| && r.maxOutput == e.job.maxTokens
           && 0 < r.cached == r.device < r.promptLen && r.cached % BLOCK == 0 && r.stop.buf == []
           && e.genBase == |e.generated|
         case Decode =>
           && inDecoding && !inWaiting && hasSeg
           && r.promptLen == |e.job.prompt| && r.maxOutput == e.job.maxTokens
           && r.cached == r.device == |Hist(e)| <= r.promptLen + r.maxOutput
           && e.cur == Hist(e)[r.cached - 1] && r.stop.Tracks(e.generated[e.genBase..])
         case _ =>
           && r.state != Prefill
           && inWaiting && !inDecoding && !hasSeg
           && r.cached == r.device == 0 && r.promptLen <= |e.job.prompt| && r.stop.buf == []
  }

  function MetaOf(s: Sys, id: Id): Option<Meta> {
    if id in s.meta then Some(s.meta[id]) else None
  }

  ghost predicate Queues(s: Sys) {
    && NoDups(s.waiting) && NoDups(s.decoding) && NoDups(s.arrivals)
    && (forall id :: id in s.meta <==> id in s.waiting || id in s.decoding)
    && s.meta.Keys <= s.reqs.Keys && s.clients.Keys == s.reqs.Keys && s.segs.Keys <= s.meta.Keys
    && (forall id :: id in s.arrivals <==> id in s.reqs)
  }

  ghost predicate IdOk(c: Cfg, s: Sys, id: Id)
    requires id in s.reqs && id in s.clients
  {
    ReqOk(c, s.reqs[id], MetaOf(s, id), s.clients[id].job, id in s.waiting, id in s.decoding, id in s.segs)
  }

  ghost predicate Reqs(c: Cfg, s: Sys)
    requires s.clients.Keys == s.reqs.Keys
  {
    forall id {:trigger IdOk(c, s, id)} :: id in s.reqs ==> IdOk(c, s, id)
  }

  ghost predicate SegsFit(c: Cfg, segs: map<Id, nat>) {
    forall id :: id in segs ==> segs[id] + c.W() <= AnchorBase(c)
  }

  ghost predicate CacheFits(c: Cfg, cache: map<Key, nat>) {
    forall k :: k in cache ==> cache[k] + c.W() <= AnchorBase(c) && KeyOk(c, k)
  }

  /** Everything is where the device buffers have room for it. */
  ghost predicate Shape(c: Cfg, s: Sys) {
    && ExecOk(c, s.x) && |s.owner| == c.kvPages
    && SegsFit(c, s.segs) && CacheFits(c, Cached(s))
  }

  predicate KeyOk(c: Cfg, k: Key) {
    |k| % BLOCK == 0 && MIN_BLOCKS <= |k| / BLOCK <= c.dev.pp
  }

  ghost predicate AllFree(owner: seq<Owner>, base: nat, n: nat) {
    forall p :: base <= p < base + n && p < |owner| ==> owner[p] == Free
  }

  /** The singleton is the one decoding request, and its pool holds all but possibly the
      pending cell. */
  ghost predicate Current(q: Single, reqs: map<Id, Req>, segs: map<Id, nat>, decoding: seq<Id>) {
    && decoding == [q.id]
    && q.id in segs && q.base == segs[q.id]
    && q.id in reqs && reqs[q.id].cached - 1 <= q.kvLen <= reqs[q.id].cached
  }

  /** A singleton is either current, or stale: then nothing decodes and nobody owns the pages
      it would be flushed into. */
  ghost predicate SingleOk(c: Cfg, s: Sys) {
    s.x.single.Some? ==>
      var q := s.x.single.value;
      && q.base + c.W() <= AnchorBase(c)
      && (Current(q, s.reqs, s.segs, s.decoding) || (s.decoding == [] && AllFree(s.owner, q.base, c.W())))
  }

  /** The bookkeeping part of the invariant. */
  ghost predicate Books(c: Cfg, s: Sys) {
    Queues(s) && Reqs(c, s) && Shape(c, s) && SingleOk(c, s)
  }

  // ---- page ownership ----------------------------------------------------------------------

  ghost predicate OwnedBy(c: Cfg, owner: seq<Owner>, refs: seq<nat>, segs: map<Id, nat>, cache: map<Key, nat>) {
    && |owner| == |refs| == c.kvPages
    && (forall p :: 0 <= p < |owner| ==> refs[p] == if owner[p] == Free then 0 else 1)
    && (forall p :: 0 <= p < |owner| ==> (owner[p] == Anchor <==> AnchorBase(c) <= p))
    && (forall p, id :: 0 <= p < |owner| ==>
          (owner[p] == Seg(id) <==> id in segs && segs[id] <= p < segs[id] + c.W()))
    && (forall p, k :: 0 <= p < |owner| ==>
          (owner[p] == Run(k) <==> k in cache && c.dev.InRun(cache[k], |k| / BLOCK, p)))
  }

  /** Every page has at most one holder, and its reference count is the number of holders. */
  ghost predicate Owned(c: Cfg, s: Sys) {
    OwnedBy(c, s.owner, s.x.refs, s.segs, Cached(s))
  }

  // ---- accounting --------------------------------------------------------------------------

  function Unreturned(reqs: map<Id, Req>, ids: seq<Id>): nat {
    if ids == [] then 0
    else
      Unreturned(reqs, ids[..|ids| - 1])
      + (var id := ids[|ids| - 1]; if id in reqs && reqs[id].Live() then reqs[id].device else 0)
  }

  /** Segments are taken and returned in pairs. */
  ghost predicate Slots(clients: map<Id, Client>, segs: map<Id, nat>) {
    forall id :: id in clients ==> clients[id].allocs == clients[id].frees + (if id in segs then 1 else 0)
  }

  ghost predicate Ledger(s: Sys) {
    && s.dispatched == s.returned + Unreturned(s.reqs, s.arrivals)
    && Slots(s.clients, s.segs)
  }

  // ---- KV content --------------------------------------------------------------------------

  ghost predicate IsSingle(s: Sys, id: Id) {
    s.x.single.Some? && s.x.single.value.id == id
  }

  /** Cells `[0, n)` of a decoding request are those of its history, wherever it lives. */
  ghost predicate Lives(c: Cfg, s: Sys, id: Id, n: nat) {
    && id in s.meta && id in s.segs && s.meta[id].genBase <= |s.meta[id].generated|
    && var h := Hist(s.meta[id]);
    if IsSingle(s, id) then n <= s.x.single.value.kvLen && c.dev.Holds(s.x.engine, 0, h, s.x.single.value.kvLen)
    else c.dev.Holds(s.x.store, s.segs[id], h, n)
  }

  ghost predicate CacheHolds(c: Cfg, s: Sys) {
    forall k :: k in Cached(s) ==> c.dev.Holds(s.x.store, Cached(s)[k], k, |k|)
  }

  /** All KV that can still be read is what recomputation would give; only the last cell of a
      decoding request may be pending. */
  ghost predicate Content(c: Cfg, s: Sys) {
    && (forall id :: id in s.decoding && id in s.reqs && s.reqs[id].cached > 0 ==> Lives(c, s, id, s.reqs[id].cached - 1))
    && CacheHolds(c, s)
  }

  // ---- isolation ---------------------------------------------------------------------------

  /** Frames received so far are a prefix of the stream of the request run alone, all of it
      once the request is done. */
  ghost predicate ClientOk(c: Cfg, cl: Client) {
    && |cl.job.prompt| > 0
    && cl.emitted + SerialTail(c.Net(), Served(cl.job), cl.emitted) == SerialStream(c.Net(), Served(cl.job))
    && (cl.done ==> cl.emitted == SerialStream(c.Net(), Served(cl.job)))
  }

  /** A live request's sampler has seen exactly the rows of the run alone. */
  ghost predicate ChainOk(c: Cfg, e: Meta, cl: Client) {
    && e.genBase == 0 && e.generated == cl.emitted && !cl.done && |e.job.prompt| > 0
    && |e.rows| == |e.generated|
    && e.rows == Rows(c.Net(), e.job.prompt, e.generated)[..|e.generated|]
  }

  ghost predicate Isolated(c: Cfg, s: Sys) {
    forall id :: id in s.clients && !s.clients[id].restarted ==>
      ClientOk(c, s.clients[id]) && (id in s.meta ==> ChainOk(c, s.meta[id], s.clients[id]))
  }

  /** The global invariant. `chunked` records that some prompt was prefilled in several
      chunks, after which nothing is claimed about content. */
  ghost predicate Inv(c: Cfg, s: Sys) {
    && Books(c, s) && Owned(c, s) && Ledger(s)
    && (!s.chunked ==> Content(c, s) && Isolated(c, s))
  }
}
