/** One request: the stop matcher, the two-cursor state machine, and the token stream the
    serial pipeline would produce for it. */
module Requests {
  import opened Transformer

  datatype Option<+T> = None | Some(value: T)

  // ---- stop matching ---------------------------------------------------------------------

  predicate EndsWith(s: seq<Token>, p: seq<Token>) {
    |p| <= |s| && s[|s| - |p|..] == p
  }

  predicate AnySuffix(s: seq<Token>, patterns: seq<seq<Token>>) {
    exists p :: p in patterns && EndsWith(s, p)
  }

  function LastN(s: seq<Token>, n: nat): seq<Token> {
    if |s| <= n then s else s[|s| - n..]
  }

  function MaxLen(patterns: seq<seq<Token>>): (r: nat)
    ensures forall p :: p in patterns ==> |p| <= r
  {
    if patterns == [] then 0
    else
      var r := MaxLen(patterns[1..]);
      if |patterns[0]| > r then |patterns[0]| else r
  }

  /** Empty patterns are dropped when the matcher is built. */
  function NonEmpty(patterns: seq<seq<Token>>): (r: seq<seq<Token>>)
    ensures forall p :: p in r <==> p in patterns && p != []
  {
    if patterns == [] then []
    else (if patterns[0] == [] then [] else [patterns[0]]) + NonEmpty(patterns[1..])
  }

  lemma {:induction false} NonEmptyId(patterns: seq<seq<Token>>)
    requires [] !in patterns
    ensures NonEmpty(patterns) == patterns
  {
    if patterns != [] {
      NonEmptyId(patterns[1..]);
    }
  }

  /** Dropping tokens from the front of a stream hides no pattern that still fits. */
  lemma SuffixSame(s: seq<Token>, full: seq<Token>, p: seq<Token>)
    requires |s| <= |full| && full[|full| - |s|..] == s && (|p| <= |s| || s == full)
    ensures EndsWith(s, p) <==> EndsWith(full, p)
  {
    if |p| <= |s| {
      assert s[|s| - |p|..] == full[|full| - |p|..];
    }
  }

  lemma LastNGrows(s: seq<Token>, t: Token, n: nat)
    requires n > 0
    ensures LastN(LastN(s, n) + [t], n) == LastN(s + [t], n)
  {
  }

  /** Incremental matcher: keeps only the last `MaxLen - 1` tokens of the stream. */
  datatype StopMatcher = StopMatcher(patterns: seq<seq<Token>>, buf: seq<Token>) {
    function Push(token: Token): (r: (bool, StopMatcher)) {
      var s := buf + [token];
      if AnySuffix(s, patterns) then (true, this)
      else if MaxLen(patterns) > 1 then (false, this.(buf := LastN(s, MaxLen(patterns) - 1)))
      else (false, this)
    }

    /** The window is the tail of `stream`. */
    predicate Tracks(stream: seq<Token>) {
      buf == LastN(stream, if MaxLen(patterns) > 0 then MaxLen(patterns) - 1 else 0)
    }

    /** The bounded window decides exactly what the whole stream would: a match fires iff
        some pattern is a suffix of the stream including the new token. */
    lemma PushDecides(stream: seq<Token>, token: Token)
      requires Tracks(stream) && [] !in patterns
      ensures Push(token).0 <==> AnySuffix(stream + [token], patterns)
      ensures !Push(token).0 ==> Push(token).1.Tracks(stream + [token]) && Push(token).1.patterns == patterns
    {
      var s, full := buf + [token], stream + [token];
      WindowEnough(stream, token);
      assert AnySuffix(s, patterns) <==> AnySuffix(full, patterns);
      if MaxLen(patterns) <= 1 {
        assert LastN(full, 0) == [] == LastN(stream, 0);
      } else {
        LastNGrows(stream, token, MaxLen(patterns) - 1);
      }
    }

    lemma WindowEnough(stream: seq<Token>, token: Token)
      requires Tracks(stream) && [] !in patterns
      ensures forall p :: p in patterns ==> (EndsWith(buf + [token], p) <==> EndsWith(stream + [token], p))
    {
      var s, full := buf + [token], stream + [token];
      forall p | p in patterns
        ensures EndsWith(s, p) <==> EndsWith(full, p)
      {
        assert 0 < |p| <= MaxLen(patterns);
        SuffixSame(s, full, p);
      }
    }
  }

  // ---- the request state machine -----------------------------------------------------------

  datatype ReqState = Waiting | Prefill | Chunked | Decode | Done | Aborted | Preempted

  datatype ConfirmEvent =
    | ChunkConfirmed
    | PrefillDone
    | DecodeConfirmed(token: Token)
    | Stopped
    | Eos
    | MaxOutput

  /** `cached`: tokens confirmed in the KV cache; `device`: tokens dispatched. */
  datatype Req = Req(
    state: ReqState,
    promptLen: nat,
    maxOutput: nat,
    cached: nat,
    device: nat,
    stop: StopMatcher,
    eos: Option<Token>)
  {
    predicate Live() {
      state != Done && state != Aborted
    }

    /** The requires are the conditions under which the machine does not return an error. */
    function StartPrefill(prompt: nat, output: nat, chunk: nat): Req
      requires (state == Waiting || state == Preempted) && chunk > 0
    {
      var d := if chunk < prompt then chunk else prompt;
      this.(promptLen := prompt, maxOutput := output, cached := 0, device := d,
            state := if d >= prompt then Prefill else Chunked)
    }

    function DispatchChunk(end: nat): Req
      requires state == Chunked && cached < end <= promptLen
    {
      this.(device := end)
    }

    function Confirm(): (r: (Req, ConfirmEvent))
      requires state == Prefill || state == Chunked
    {
      if device >= promptLen then (this.(cached := device, state := Decode), PrefillDone)
      else (this.(cached := device), ChunkConfirmed)
    }

    /** Stop is checked first, then EOS, then the output cap; a terminal token is dispatched
        but neither cached nor emitted. */
    function DecodeStep(token: Token): (r: (Req, ConfirmEvent))
      requires state == Decode
    {
      var d := this.(device := cached + 1);
      var (hit, stop') := stop.Push(token);
      if hit then (d.(state := Done), Stopped)
      else if eos == Some(token) then (d.(state := Done, stop := stop'), Eos)
      else if d.device > promptLen + maxOutput then (d.(state := Done, stop := stop'), MaxOutput)
      else (d.(cached := d.device, stop := stop'), DecodeConfirmed(token))
    }

    function Preempt(): Req
      requires state == Prefill || state == Chunked || state == Decode
    {
      this.(state := Preempted, cached := 0, device := 0, stop := stop.(buf := []))
    }
  }

  /** Which event a token causes, told from the whole stream: a stop pattern it completes comes
      first, then the end token, then the limit. */
  lemma EventOrder(r: Req, stream: seq<Token>, token: Token)
    requires r.state == Decode && r.stop.Tracks(stream) && [] !in r.stop.patterns
    ensures var (q, ev) := r.DecodeStep(token);
            && (ev == Stopped <==> AnySuffix(stream + [token], r.stop.patterns))
            && (ev == Eos <==> ev != Stopped && r.eos == Some(token))
            && (ev == MaxOutput <==> ev != Stopped && ev != Eos && r.cached >= r.promptLen + r.maxOutput)
            && (q.state == Done <==> ev in {Stopped, Eos, MaxOutput})
  {
    r.stop.PushDecides(stream, token);
  }

  // ---- the serial reference run --------------------------------------------------------------

  /** What a client asks for; `params` stands for sampling parameters and seed. */
  datatype Job = Job(
    prompt: seq<Token>,
    maxTokens: nat,
    stop: seq<seq<Token>>,
    eos: Option<Token>,
    params: nat)

  /** The model and a deterministic sampler chain: the next token is a function of the
      parameters and of every logits row the chain has seen. */
  datatype Net = Net(m: Model, sample: (nat, seq<Vec>) -> Token)

  /** The logits rows seen when `gen` has been generated and the next token is sampled. */
  function Rows(net: Net, prompt: seq<Token>, gen: seq<Token>): (r: seq<Vec>)
    requires |prompt| > 0
    ensures |r| == |gen| + 1
  {
    seq(|gen| + 1, k requires 0 <= k < |gen| + 1 => Logits(net.m, prompt + gen[..k]))
  }

  function NextToken(net: Net, job: Job, gen: seq<Token>): Token
    requires |job.prompt| > 0
  {
    net.sample(job.params, Rows(net, job.prompt, gen))
  }

  /** The tokens the serial run still emits once `gen` has been generated. */
  function SerialTail(net: Net, job: Job, gen: seq<Token>): (r: seq<Token>)
    requires |job.prompt| > 0
    decreases job.maxTokens - |gen|
  {
    if |gen| >= job.maxTokens then []
    else
      var t := NextToken(net, job, gen);
      if job.eos == Some(t) || AnySuffix(gen + [t], job.stop) then []
      else [t] + SerialTail(net, job, gen + [t])
  }

  function SerialStream(net: Net, job: Job): seq<Token>
    requires |job.prompt| > 0
  {
    SerialTail(net, job, [])
  }

  /** The job as the scheduler's matcher sees it. */
  function Served(job: Job): Job {
    job.(stop := NonEmpty(job.stop))
  }

  /** The serial path does not drop empty stop patterns and then emits nothing, so the two
      paths agree exactly when there is none or the filtered stream is empty anyway. */
  lemma EmptyPatternsDiffer(net: Net, job: Job)
    requires |job.prompt| > 0
    ensures SerialStream(net, job) == SerialStream(net, Served(job))
       <==> [] !in job.stop || SerialStream(net, Served(job)) == []
  {
    if [] in job.stop {
      if job.maxTokens > 0 {
        var t := NextToken(net, job, []);
        assert EndsWith([] + [t], []);
      }
    } else {
      NonEmptyId(job.stop);
      assert Served(job) == job;
    }
  }
}
