/** The serial pipeline: prefill, then step, sample, emit.  It produces exactly the stream that
    requests served together are compared with. */
module Pipeline {
  import opened Transformer
  import opened PagedKv
  import opened Requests
  import opened ExecSteps
  import opened EngineKv
  import opened ExecutorKv

  /** Statistics of a finished run: the number of tokens kept and why it ended. */
  datatype GenResult = Failed | Finished(tokens: nat, byEos: bool, byStop: Option<nat>)

  predicate Matches(s: seq<Token>, patterns: seq<seq<Token>>, i: nat) {
    i < |patterns| && EndsWith(s, patterns[i])
  }

  /** The first stop pattern that ends `s`. */
  method FindStop(s: seq<Token>, patterns: seq<seq<Token>>) returns (r: Option<nat>)
    ensures r.Some? <==> AnySuffix(s, patterns)
    ensures r.Some? ==> Matches(s, patterns, r.value) && forall j :: 0 <= j < r.value ==> !Matches(s, patterns, j)
  {
    var i := 0;
    while i < |patterns|
      invariant i <= |patterns| && forall j :: 0 <= j < i ==> !Matches(s, patterns, j)
    {
      if Matches(s, patterns, i) {
        assert patterns[i] in patterns;
        return Some(i);
      }
      i := i + 1;
    }
    r := None;
    forall p | p in patterns
      ensures !EndsWith(s, p)
    {
      var j :| 0 <= j < |patterns| && patterns[j] == p;
      assert !Matches(s, patterns, j);
    }
  }

  /** Write the whole prompt into the engine pool, batched if that path is available and token
      by token otherwise. */
  method PrefillPrompt(engine: Engine, prompt: seq<Token>, batched: bool)
    requires engine.Valid() && |prompt| <= engine.dev.pp * BLOCK
    modifies engine.kv
    ensures engine.Valid() && engine.dev.Holds(engine.kv.pages, 0, prompt, |prompt|)
  {
    if batched {
      engine.dev.PrefillHolds(engine.kv.pages, prompt);
      engine.PrefillBatch(prompt);
    } else {
      StepTokensHolds(engine.dev, engine.kv.pages, prompt, 0, |prompt|);
      StepSuffix(engine, prompt, 0);
    }
  }

  /** What the sampler chain has been fed. */
  ghost predicate Fed(net: Net, prompt: seq<Token>, generated: seq<Token>, rows: seq<Vec>)
    requires |prompt| > 0
  {
    |rows| == |generated| && rows == Rows(net, prompt, generated)[..|generated|]
  }

  lemma FedMore(net: Net, job: Job, generated: seq<Token>, rows: seq<Vec>, row: Vec)
    requires |job.prompt| > 0 && Fed(net, job.prompt, generated, rows)
    requires row == Logits(net.m, job.prompt + generated)
    ensures rows + [row] == Rows(net, job.prompt, generated)
    ensures net.sample(job.params, rows + [row]) == NextToken(net, job, generated)
  {
    var all := Rows(net, job.prompt, generated);
    assert generated[..|generated|] == generated;
    assert all[|generated|] == row;
    assert rows + [row] == all[..|generated|] + [all[|generated|]] == all;
  }

  lemma FedNext(net: Net, prompt: seq<Token>, generated: seq<Token>, token: Token)
    requires |prompt| > 0
    ensures Fed(net, prompt, generated + [token], Rows(net, prompt, generated))
  {
    var all, more := Rows(net, prompt, generated), Rows(net, prompt, generated + [token]);
    forall k | 0 <= k < |generated| + 1
      ensures all[k] == more[k]
    {
      assert (generated + [token])[..k] == generated[..k];
    }
    assert more[..|generated| + 1] == all;
  }

  lemma TailNext(net: Net, job: Job, emitted: seq<Token>, token: Token)
    requires |job.prompt| > 0 && |emitted| < job.maxTokens && token == NextToken(net, job, emitted)
    requires job.eos != Some(token) && !AnySuffix(emitted + [token], job.stop)
    ensures emitted + SerialTail(net, job, emitted) == (emitted + [token]) + SerialTail(net, job, emitted + [token])
  {
    var rest := SerialTail(net, job, emitted + [token]);
    assert emitted + ([token] + rest) == (emitted + [token]) + rest;
  }

  /** One decode step over a coherent pool: the logits row is the uncached forward's, and the
      pool is complete, ready for whatever token comes next. */
  method NextRow(engine: Engine, toks: seq<Token>) returns (row: Vec)
    requires engine.Valid() && 0 < |toks| <= engine.dev.pp * BLOCK
    requires engine.dev.Holds(engine.kv.pages, 0, toks, |toks| - 1)
    modifies engine.kv
    ensures engine.Valid() && row == Logits(engine.dev.m, toks)
    ensures forall t: Token :: engine.dev.Holds(engine.kv.pages, 0, toks + [t], |toks|)
  {
    engine.dev.StepHolds(engine.kv.pages, 0, toks);
    row := engine.Step(toks[|toks| - 1], |toks| - 1, |toks|);
    forall t: Token
      ensures engine.dev.Holds(engine.kv.pages, 0, toks + [t], |toks|)
    {
      assert toks[..|toks|] == (toks + [t])[..|toks|];
      engine.dev.HoldsPrefix(engine.kv.pages, 0, toks, toks + [t], |toks|);
    }
  }

  /** Why a run ended.  A client that is gone or a full count says nothing; otherwise the token that
      was not sent decides: the end token first, then the first stop pattern it completes, whose
      length is taken off the count. */
  ghost predicate EndsAs(net: Net, job: Job, emitted: seq<Token>, gone: bool, r: GenResult)
    requires |job.prompt| > 0 && r.Finished?
  {
    var next := NextToken(net, job, emitted);
    var more := !gone && |emitted| < job.maxTokens;
    && (r.byEos <==> more && job.eos == Some(next))
    && (r.byStop.Some? <==> more && job.eos != Some(next) && AnySuffix(emitted + [next], job.stop))
    && match r.byStop
       case None => r.tokens == |emitted|
       case Some(i) =>
         && i < |job.stop| && Matches(emitted + [next], job.stop, i)
         && (forall j :: 0 <= j < i ==> !Matches(emitted + [next], job.stop, j))
         && r.tokens + |job.stop[i]| == |emitted| + 1
  }

  /** The whole run.  `sink` is the client's answer to each frame; `batched` says whether the
      batched prefill works.  The first decode step re-runs the last prompt position.  For a
      job that fits the window and a client that stays, the frames sent are exactly the serial
      stream; in every other case they are a prefix of it. */
  method GenerateStream(engine: Engine, net: Net, job: Job, sink: seq<Token> -> bool, batched: bool)
    returns (emitted: seq<Token>, r: GenResult)
    requires engine.Valid() && engine.dev.m == net.m
    modifies engine.kv
    ensures engine.Valid()
    ensures job.prompt == [] ==> r.Failed? && emitted == []
    ensures job.prompt != [] ==> emitted <= SerialStream(net, job)
    ensures job.prompt != [] && |job.prompt| + job.maxTokens <= engine.dev.pp * BLOCK ==> r.Finished?
    ensures forall k :: 0 < k < |emitted| ==> sink(emitted[..k])
    ensures job.prompt != [] && r.Finished? && (emitted == [] || sink(emitted)) ==> emitted == SerialStream(net, job)
    ensures r.Finished? ==> job.prompt != [] && EndsAs(net, job, emitted, emitted != [] && !sink(emitted), r)
  {
    emitted := [];
    if job.prompt == [] {
      return emitted, Failed;
    }
    if |job.prompt| > engine.dev.pp * BLOCK {
      return emitted, Failed;
    }
    PrefillPrompt(engine, job.prompt, batched);
    var rows: seq<Vec> := [];
    assert job.prompt + [] == job.prompt;
    while |emitted| < job.maxTokens
      invariant engine.Valid() && |emitted| <= job.maxTokens
      invariant engine.dev.Holds(engine.kv.pages, 0, job.prompt + emitted, |job.prompt + emitted| - 1)
      invariant Fed(net, job.prompt, emitted, rows)
      invariant emitted + SerialTail(net, job, emitted) == SerialStream(net, job)
      invariant emitted != [] ==> sink(emitted)
      invariant forall k :: 0 < k < |emitted| ==> sink(emitted[..k])
      decreases job.maxTokens - |emitted|
    {
      var toks := job.prompt + emitted;
      if |toks| > engine.dev.pp * BLOCK {
        return emitted, Failed;
      }
      var row := NextRow(engine, toks);
      FedMore(net, job, emitted, rows, row);
      rows := rows + [row];
      var next := net.sample(job.params, rows);
      if Some(next) == job.eos {
        return emitted, Finished(|emitted|, true, None);
      }
      var hit := FindStop(emitted + [next], job.stop);
      if hit.Some? {
        return emitted, Finished(|emitted| + 1 - |job.stop[hit.value]|, false, hit);
      }
      TailNext(net, job, emitted, next);
      FedNext(net, job.prompt, emitted, next);
      assert toks + [next] == job.prompt + (emitted + [next]);
      ghost var before := emitted;
      emitted := emitted + [next];
      assert emitted[..|before|] == before;
      assert forall k :: 0 < k < |before| ==> emitted[..k] == before[..k];
      if !sink(emitted) {
        return emitted, Finished(|emitted|, false, None);
      }
    }
    r := Finished(|emitted|, false, None);
  }

  /** With no empty stop pattern the serial pipeline's
      frames are those of the request served by the scheduler. */
  lemma SerialIsServed(net: Net, job: Job)
    requires |job.prompt| > 0 && [] !in job.stop
    ensures SerialStream(net, job) == SerialStream(net, Served(job))
  {
    EmptyPatternsDiffer(net, job);
  }
}
