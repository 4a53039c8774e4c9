/** Graph capture and replay per step-length bucket: which buckets are bound, which have failed,
    and what the counters say about them after any run. */
module GraphBuckets {

  const BUCKET_MIN: nat := 8
  const STEP_SMALL: nat := 8
  const STEP_LARGE: nat := 16
  const SPLIT: nat := 128
  const BUCKET_MAX: nat := 256
  const SMALL: nat := 16
  const COUNT: nat := 24

  // ---- the bucket table ----------------------------------------------------------------------------

  /** The small half's own clamp never applies, and is left out. */
  function BucketIndex(len: nat): (r: nat)
    ensures r < COUNT
  {
    if len <= SPLIT then
      var i := (len + STEP_SMALL - 1) / STEP_SMALL;
      if i == 0 then 0 else i - 1
    else
      var i := (len - SPLIT + STEP_LARGE - 1) / STEP_LARGE;
      if SMALL + i - 1 >= COUNT then COUNT - 1 else SMALL + i - 1
  }

  function BucketSize(i: nat): nat
    requires i < COUNT
  {
    if i < SMALL then BUCKET_MIN + i * STEP_SMALL else SPLIT + (i + 1 - SMALL) * STEP_LARGE
  }

  lemma SizesGrow(i: nat, j: nat)
    requires i < j < COUNT
    ensures BucketSize(i) < BucketSize(j)
  {
  }

  /** The index is that of the smallest bucket that holds the step, exactly as long as there is
      one; longer steps share the last bucket. */
  lemma IndexIsSmallest(len: nat)
    ensures len <= BucketSize(BucketIndex(len)) <==> len <= BUCKET_MAX
    ensures len <= BUCKET_MAX ==> forall i :: 0 <= i < BucketIndex(len) ==> BucketSize(i) < len
    ensures len > BUCKET_MAX ==> BucketIndex(len) == COUNT - 1
  {
    var b := BucketIndex(len);
    if 0 < b && len <= BUCKET_MAX {
      assert BucketSize(b - 1) < len;
      forall i | 0 <= i < b
        ensures BucketSize(i) < len
      {
        if i < b - 1 {
          SizesGrow(i, b - 1);
        }
      }
    }
  }

  // ---- the machine -----------------------------------------------------------------------------------

  /** How a capture attempt can end: bound, captured but not seeded, or not captured. */
  datatype Capture = Bound | SeedFailed | CaptureFailed

  /** Every bucket tried was tried once, and is now either bound, as recorded, or failed. */
  ghost predicate Fates(tried: seq<nat>, execs: set<nat>, failed: set<nat>, recorded: set<nat>) {
    && (forall i, j :: 0 <= i < j < |tried| ==> tried[i] != tried[j])
    && (forall b :: b in tried <==> b in execs || b in failed)
    && (forall b :: b in execs ==> b !in failed && b in recorded)
    && (forall b :: b in recorded ==> b in execs || b in failed)
  }

  function Size(s: set<nat>): nat {
    |s|
  }

  lemma NewFate(tried: seq<nat>, execs: set<nat>, failed: set<nat>, recorded: set<nat>, b: nat, outcome: Capture)
    requires Fates(tried, execs, failed, recorded) && b !in execs && b !in failed
    ensures Fates(tried + [b], if outcome.Bound? then execs + {b} else execs,
                  if outcome.Bound? then failed else failed + {b},
                  if outcome.CaptureFailed? then recorded else recorded + {b})
    ensures Size(failed + {b}) == Size(failed) + 1 && Size(recorded + {b}) == Size(recorded) + 1
  {
    hide Size;
    assert b !in tried && b !in recorded;
    CardPlus(failed, b);
    CardPlus(recorded, b);
  }

  lemma LostFate(tried: seq<nat>, execs: set<nat>, failed: set<nat>, recorded: set<nat>, b: nat)
    requires Fates(tried, execs, failed, recorded) && b in execs
    ensures Fates(tried, execs - {b}, failed + {b}, recorded)
    ensures Size(failed + {b}) == Size(failed) + 1
  {
    CardPlus(failed, b);
  }

  lemma CardPlus(s: set<nat>, b: nat)
    requires b !in s
    ensures Size(s + {b}) == Size(s) + 1
  {
  }

  class Buckets {
    var execs: set<nat>
    var failed: set<nat>
    var fallbacks: nat
    var captures: nat
    var replays: nat
    // history: buckets in the order capture was attempted, those whose capture succeeded, and
    // steps served without a graph
    ghost var tried: seq<nat>
    ghost var recorded: set<nat>
    ghost var eager: nat
    ghost var steps: nat

    /** No bucket is both bound and failed; each was tried once; the counters count buckets. */
    ghost predicate Valid()
      reads this
    {
      && Fates(tried, execs, failed, recorded)
      && fallbacks == Size(failed) && captures == Size(recorded)
      && steps == replays + eager
    }

    constructor ()
      ensures Valid() && steps == 0 && execs == {} && failed == {}
    {
      execs, failed := {}, {};
      fallbacks, captures, replays := 0, 0, 0;
      tried, recorded, eager, steps := [], {}, 0, 0;
    }

    /** One decode step of length `len`: replay the bound graph, stay eager in a failed bucket,
        or try to capture and serve this step eagerly.  `outcome` and `replayOk` are the
        driver's answers. */
    method Step(len: nat, enabled: bool, outcome: Capture, replayOk: bool) returns (replayed: bool)
      requires Valid()
      modifies this
      ensures Valid() && steps == old(steps) + 1
      ensures replayed <==> enabled && BucketIndex(len) in old(execs) && replayOk
      ensures old(failed) <= failed && old(tried) <= tried
      ensures !enabled || BucketIndex(len) in old(failed) ==> execs == old(execs) && failed == old(failed) && tried == old(tried)
      ensures enabled && BucketIndex(len) in old(execs) ==>
                tried == old(tried) && execs == if replayOk then old(execs) else old(execs) - {BucketIndex(len)}
      ensures enabled && BucketIndex(len) !in old(execs) + old(failed) ==>
                && tried == old(tried) + [BucketIndex(len)]
                && execs == (if outcome.Bound? then old(execs) + {BucketIndex(len)} else old(execs))
                && failed == (if outcome.Bound? then old(failed) else old(failed) + {BucketIndex(len)})
    {
      replayed := false;
      if enabled {
        var b := BucketIndex(len);
        if b in failed {
        } else if b in execs {
          if replayOk {
            replays := replays + 1;
            replayed := true;
          } else {
            hide Fates, Size;
            LostFate(tried, execs, failed, recorded, b);
            execs := execs - {b};
            failed := failed + {b};
            fallbacks := fallbacks + 1;
          }
        } else {
          TryCapture(b, outcome);
        }
      }
      if !replayed {
        eager := eager + 1;
      }
      steps := steps + 1;
    }

    method TryCapture(b: nat, outcome: Capture)
      requires Valid() && b !in execs && b !in failed
      modifies this
      ensures Valid() && steps == old(steps) && tried == old(tried) + [b]
      ensures replays == old(replays) && eager == old(eager)
      ensures execs == if outcome.Bound? then old(execs) + {b} else old(execs)
      ensures failed == if outcome.Bound? then old(failed) else old(failed) + {b}
    {
      hide Fates, Size;
      NewFate(tried, execs, failed, recorded, b, outcome);
      tried := tried + [b];
      match outcome
      case Bound =>
        captures, recorded := captures + 1, recorded + {b};
        execs := execs + {b};
      case SeedFailed =>
        captures, recorded := captures + 1, recorded + {b};
        failed, fallbacks := failed + {b}, fallbacks + 1;
      case CaptureFailed =>
        failed, fallbacks := failed + {b}, fallbacks + 1;
    }

    /** What the counters mean: a fallback per failed bucket; a capture per bound bucket and
        per failed bucket that had been captured; one attempt per bucket. */
    lemma Counters()
      requires Valid()
      ensures fallbacks == |failed|
      ensures captures == |execs| + |failed * recorded|
      ensures |tried| == |execs| + |failed|
    {
      assert recorded == execs + failed * recorded;
      assert execs !! failed * recorded;
      LogSize(tried, execs + failed);
    }
  }

  lemma {:induction false} LogSize(log: seq<nat>, s: set<nat>)
    requires (forall i, j :: 0 <= i < j < |log| ==> log[i] != log[j]) && forall b :: b in log <==> b in s
    ensures |log| == |s|
  {
    if log == [] {
      assert s == {};
    } else {
      var rest, last := log[..|log| - 1], log[|log| - 1];
      assert log == rest + [last] && last !in rest;
      forall b
        ensures b in rest <==> b in s - {last}
      {
        assert b in log <==> b in rest || b == last;
      }
      LogSize(rest, s - {last});
    }
  }
}
