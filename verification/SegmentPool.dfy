/** The segment pool: per-page reference counts and a recency-ordered list of coalesced free
    runs.  The list always covers exactly the pages without references, by runs no two of
    which touch; everything else follows from that. */
module SegmentPool {
  import opened Requests
  import opened ExecSteps

  /** Pages `[base, base + len)`. */
  datatype FreeRun = FreeRun(base: nat, len: nat) {
    predicate Has(p: nat) {
      base <= p < base + len
    }

    function Pages(): set<nat> {
      set p: nat | p < base + len && Has(p)
    }

    /** Neither overlapping nor adjacent. */
    predicate Separate(other: FreeRun) {
      base + len < other.base || other.base + other.len < base
    }
  }

  /** The list covers exactly the pages `z`, by non-empty runs no two of which touch. */
  ghost predicate Cover(free: seq<FreeRun>, z: set<nat>) {
    && (forall i :: 0 <= i < |free| ==> free[i].len > 0 && free[i].Pages() <= z)
    && (forall p :: p in z ==> exists i :: 0 <= i < |free| && p in free[i].Pages())
    && (forall i, j :: 0 <= i < j < |free| ==> free[i].Separate(free[j]))
  }

  function ZeroPages(refs: seq<nat>): set<nat> {
    set p: nat | p < |refs| && refs[p] == 0
  }

  ghost predicate AllZero(refs: seq<nat>, base: nat, n: nat) {
    base + n <= |refs| && forall p :: base <= p < base + n ==> refs[p] == 0
  }

  ghost predicate AllHeld(refs: seq<nat>, base: nat, n: nat) {
    base + n <= |refs| && forall p :: base <= p < base + n ==> refs[p] >= 1
  }

  function RefPages(refs: seq<nat>, base: nat, n: nat): (r: seq<nat>)
    ensures |r| == |refs|
  {
    seq(|refs|, p requires 0 <= p < |refs| => if base <= p < base + n then refs[p] + 1 else refs[p])
  }

  // ---- facts about covers ------------------------------------------------------------------------

  function Remove(free: seq<FreeRun>, i: nat): seq<FreeRun>
    requires i < |free|
  {
    free[..i] + free[i + 1..]
  }

  lemma DistinctRuns(free: seq<FreeRun>, z: set<nat>, k: nat, i: nat)
    requires Cover(free, z) && k < |free| && i < |free| && k != i
    ensures free[k].len > 0 && free[k].Pages() <= z && free[k].Pages() !! free[i].Pages()
  {
    assert k < i ==> free[k].Separate(free[i]);
    assert i < k ==> free[i].Separate(free[k]);
  }

  lemma RemoveCover(free: seq<FreeRun>, z: set<nat>, i: nat)
    requires Cover(free, z) && i < |free|
    ensures Cover(Remove(free, i), z - free[i].Pages())
  {
    var r, z' := Remove(free, i), z - free[i].Pages();
    forall k | 0 <= k < |r|
      ensures r[k].len > 0 && r[k].Pages() <= z'
    {
      var k' := if k < i then k else k + 1;
      assert r[k] == free[k'];
      DistinctRuns(free, z, k', i);
    }
    forall p | p in z'
      ensures exists k :: 0 <= k < |r| && p in r[k].Pages()
    {
      var k :| 0 <= k < |free| && p in free[k].Pages();
      assert r[if k < i then k else k - 1] == free[k];
    }
    forall a, b | 0 <= a < b < |r|
      ensures r[a].Separate(r[b])
    {
      assert r[a] == free[if a < i then a else a + 1] && r[b] == free[if b < i then b else b + 1];
    }
  }

  lemma PrependCover(free: seq<FreeRun>, z: set<nat>, run: FreeRun)
    requires Cover(free, z) && run.len > 0
    requires forall i :: 0 <= i < |free| ==> free[i].Separate(run)
    ensures Cover([run] + free, z + run.Pages())
  {
    var r, z' := [run] + free, z + run.Pages();
    forall p | p in z'
      ensures exists k :: 0 <= k < |r| && p in r[k].Pages()
    {
      if p in run.Pages() {
        assert p in r[0].Pages();
      } else {
        var k :| 0 <= k < |free| && p in free[k].Pages();
        assert r[k + 1] == free[k];
      }
    }
    forall a, b | 0 <= a < b < |r|
      ensures r[a].Separate(r[b])
    {
      assert r[b] == free[b - 1];
    }
  }

  /** A run is maximal: the page after it and the page before it are not covered. */
  lemma Maximal(free: seq<FreeRun>, z: set<nat>, i: nat)
    requires Cover(free, z) && i < |free|
    ensures free[i].base + free[i].len !in z
    ensures free[i].base > 0 ==> free[i].base - 1 !in z
  {
    forall p: nat, k | (p == free[i].base + free[i].len || p + 1 == free[i].base) && 0 <= k < |free|
      ensures p !in free[k].Pages()
    {
      assert k < i ==> free[k].Separate(free[i]);
      assert i < k ==> free[i].Separate(free[k]);
    }
  }

  /** A window of covered pages lies inside a single run. */
  lemma {:induction false} WindowInRun(free: seq<FreeRun>, z: set<nat>, base: nat, n: nat) returns (i: nat)
    requires Cover(free, z) && n > 0 && forall p :: base <= p < base + n ==> p in z
    ensures i < |free| && free[i].base <= base && base + n <= free[i].base + free[i].len
    decreases n
  {
    if n == 1 {
      assert base in z;
      i :| 0 <= i < |free| && base in free[i].Pages();
    } else {
      i := WindowInRun(free, z, base, n - 1);
      Maximal(free, z, i);
      assert base + n - 1 in z;
    }
  }

  lemma WindowZero(refs: seq<nat>, run: FreeRun, base: nat, n: nat)
    requires run.Pages() <= ZeroPages(refs) && n > 0 && run.base <= base && base + n <= run.base + run.len
    ensures AllZero(refs, base, n)
  {
    forall p | base <= p < base + n
      ensures p < |refs| && refs[p] == 0
    {
      assert p in run.Pages();
    }
    assert base + n - 1 in run.Pages();
  }

  /** Taking one end of a run leaves the other end at the front of the list. */
  function Carved(free: seq<FreeRun>, i: nat, left: FreeRun): seq<FreeRun>
    requires i < |free|
  {
    if left.len > 0 then [left] + Remove(free, i) else Remove(free, i)
  }

  /** Position `i` is the first run of the list that has `n` pages. */
  ghost predicate FirstFit(free: seq<FreeRun>, n: nat, i: nat) {
    i < |free| && free[i].len >= n && forall k :: 0 <= k < i ==> free[k].len < n
  }

  /** Position `i` is the last run of the list that has `n` pages. */
  ghost predicate LastFit(free: seq<FreeRun>, n: nat, i: nat) {
    i < |free| && free[i].len >= n && forall k :: i < k < |free| ==> free[k].len < n
  }

  /** Run `i` has left the list, and `left`, if there is anything left of it, is now in front. */
  ghost predicate Split(free: seq<FreeRun>, i: nat, left: FreeRun, free': seq<FreeRun>) {
    i < |free| && free' == (if left.len == 0 then [] else [left]) + free[..i] + free[i + 1..]
  }

  /** `n` pages were taken from the start of the first run that has them. */
  ghost predicate TookFirst(free: seq<FreeRun>, n: nat, base: nat, free': seq<FreeRun>) {
    exists i: nat :: FirstFit(free, n, i) && base == free[i].base && Split(free, i, FreeRun(base + n, free[i].len - n), free')
  }

  /** `n` pages were taken from the end of the last run that has them. */
  ghost predicate TookLast(free: seq<FreeRun>, n: nat, base: nat, free': seq<FreeRun>) {
    exists i: nat :: LastFit(free, n, i) && base + n == free[i].base + free[i].len
                     && Split(free, i, FreeRun(free[i].base, free[i].len - n), free')
  }

  lemma FirstTaken(free: seq<FreeRun>, n: nat, i: nat)
    requires FirstFit(free, n, i)
    ensures TookFirst(free, n, free[i].base, Carved(free, i, FreeRun(free[i].base + n, free[i].len - n)))
  {
  }

  lemma LastTaken(free: seq<FreeRun>, n: nat, i: nat)
    requires LastFit(free, n, i)
    ensures TookLast(free, n, free[i].base + free[i].len - n, Carved(free, i, FreeRun(free[i].base, free[i].len - n)))
  {
  }

  lemma CarveCover(free: seq<FreeRun>, z: set<nat>, i: nat, taken: FreeRun, left: FreeRun)
    requires Cover(free, z) && i < |free|
    requires taken.len + left.len == free[i].len
    requires (taken.base == free[i].base && left.base == taken.base + taken.len)
          || (left.base == free[i].base && taken.base == left.base + left.len)
    ensures Cover(Carved(free, i, left), z - taken.Pages())
  {
    var run, rest := free[i], Remove(free, i);
    RemoveCover(free, z, i);
    if left.len > 0 {
      forall k | 0 <= k < |rest|
        ensures rest[k].Separate(left)
      {
        var k' := if k < i then k else k + 1;
        assert rest[k] == free[k'];
        assert k' < i ==> free[k'].Separate(free[i]);
        assert i < k' ==> free[i].Separate(free[k']);
      }
      PrependCover(rest, z - run.Pages(), left);
      assert z - run.Pages() + left.Pages() == z - taken.Pages();
    } else {
      assert run.Pages() == taken.Pages();
    }
  }

  lemma TakeZero(refs: seq<nat>, base: nat, n: nat)
    requires AllZero(refs, base, n)
    ensures ZeroPages(TakeRefs(refs, base, n)) == ZeroPages(refs) - FreeRun(base, n).Pages()
  {
    forall p: nat
      ensures p in ZeroPages(TakeRefs(refs, base, n)) <==> p in ZeroPages(refs) - FreeRun(base, n).Pages()
    {
    }
  }

  lemma DropZero(refs: seq<nat>, base: nat, n: nat, z: set<nat>)
    requires AllHeld(refs, base, n) && forall p :: p in z <==> base <= p < base + n && refs[p] == 1
    ensures ZeroPages(DropRefs(refs, base, n)) == ZeroPages(refs) + z
  {
    forall p: nat
      ensures p in ZeroPages(DropRefs(refs, base, n)) <==> p in ZeroPages(refs) + z
    {
    }
  }

  // ---- conservation ----------------------------------------------------------------------------------

  function FreeCount(free: seq<FreeRun>): nat {
    if free == [] then 0 else free[0].len + FreeCount(free[1..])
  }

  lemma {:induction false} PagesCount(base: nat, len: nat)
    ensures |FreeRun(base, len).Pages()| == len
  {
    if len > 0 {
      PagesCount(base, len - 1);
      assert FreeRun(base, len).Pages() == FreeRun(base, len - 1).Pages() + {base + len - 1};
    }
  }

  /** Page conservation: the runs of the free list add up to the pages without references. */
  lemma {:induction false} FreeCountIsCard(free: seq<FreeRun>, z: set<nat>)
    requires Cover(free, z)
    ensures FreeCount(free) == |z|
  {
    if free == [] {
      assert z == {};
    } else {
      RemoveCover(free, z, 0);
      assert free[0].Pages() <= z && free[0] == FreeRun(free[0].base, free[0].len);
      hide Cover, FreeRun.Pages;
      assert Remove(free, 0) == free[1..];
      FreeCountIsCard(free[1..], z - free[0].Pages());
      PagesCount(free[0].base, free[0].len);
      assert z == (z - free[0].Pages()) + free[0].Pages();
    }
  }

  /** `p` is the last page of the window that loses its last reference. */
  ghost predicate LastFreed(refs: seq<nat>, base: nat, n: nat, p: nat) {
    base <= p < base + n <= |refs| && refs[p] == 1 && forall q :: p < q < base + n ==> refs[q] != 1
  }

  lemma NoUnion(refs: seq<nat>, runs: seq<FreeRun>)
    ensures ZeroPages(refs) + Union(runs[..0]) == ZeroPages(refs)
  {
    assert Union(runs[..0]) == {};
  }

  /** A group of pages that were held is apart from what was free and from the groups before it. */
  lemma GroupApart(refs: seq<nat>, base: nat, n: nat, zeroed: seq<nat>, runs: seq<FreeRun>, i: nat)
    requires base + n <= |refs| && (forall p :: p in zeroed ==> base <= p < base + n && refs[p] == 1)
    requires Grouped(runs, zeroed) && i < |runs|
    ensures runs[i].len > 0 && runs[i].Pages() !! ZeroPages(refs) + Union(runs[..i])
    ensures ZeroPages(refs) + Union(runs[..i]) + runs[i].Pages() == ZeroPages(refs) + Union(runs[..i + 1])
  {
    UnionIs(runs[..i]);
    forall p | p in runs[i].Pages()
      ensures p !in ZeroPages(refs) + Union(runs[..i])
    {
      assert p in zeroed;
    }
    assert runs[..i + 1][..i] == runs[..i];
  }

  lemma AllGrouped(zeroed: seq<nat>, runs: seq<FreeRun>)
    requires Grouped(runs, zeroed)
    ensures forall p :: p in Union(runs) <==> p in zeroed
  {
    UnionIs(runs);
    forall p
      ensures p in Union(runs) <==> p in zeroed
    {
      if i :| 0 <= i < |runs| && p in runs[i].Pages() {
        assert p in zeroed;
      }
    }
  }

  /** The last group holds the last page. */
  lemma LastGroup(refs: seq<nat>, base: nat, n: nat, zeroed: seq<nat>, runs: seq<FreeRun>)
    requires base + n <= |refs| && (forall p :: p in zeroed <==> base <= p < base + n && refs[p] == 1) && Grouped(runs, zeroed)
    ensures forall p :: LastFreed(refs, base, n, p) ==> runs != [] && p in runs[|runs| - 1].Pages()
  {
    forall p | LastFreed(refs, base, n, p)
      ensures runs != [] && p in runs[|runs| - 1].Pages()
    {
      assert p in zeroed;
      var i :| 0 <= i < |runs| && p in runs[i].Pages();
      var last := runs[|runs| - 1];
      assert last.base in last.Pages() && last.base in zeroed;
    }
  }

  predicate Touches(a: FreeRun, b: FreeRun) {
    a.base + a.len == b.base || b.base + b.len == a.base
  }

  /** The runs of the list next to which `run` does not lie, in order. */
  function Untouched(free: seq<FreeRun>, run: FreeRun): seq<FreeRun> {
    if free == [] then []
    else Untouched(free[..|free| - 1], run) + (if Touches(free[|free| - 1], run) then [] else [free[|free| - 1]])
  }

  /** After `seen` runs of the list `was` the scan stands at `i` of `free`, and what touches `run0` of
      those is gone. */
  ghost predicate Listed(was: seq<FreeRun>, seen: nat, run0: FreeRun, free: seq<FreeRun>, i: nat) {
    && seen <= |was| && i <= |free|
    && free[..i] == Untouched(was[..seen], run0) && free[i..] == was[seen..]
  }

  /** What is still to come touches the merged run exactly if it touches the one to insert. */
  ghost predicate SameTouch(was: seq<FreeRun>, seen: nat, run: FreeRun, run0: FreeRun) {
    forall k :: seen <= k < |was| ==> (Touches(was[k], run) <==> Touches(was[k], run0))
  }

  lemma ListedStart(free: seq<FreeRun>, run0: FreeRun)
    ensures Listed(free, 0, run0, free, 0) && SameTouch(free, 0, run0, run0)
  {
  }

  lemma ListedNext(was: seq<FreeRun>, seen: nat, run0: FreeRun, run: FreeRun, free: seq<FreeRun>, i: nat)
    requires Listed(was, seen, run0, free, i) && SameTouch(was, seen, run, run0) && i < |free|
    ensures seen < |was| && free[i] == was[seen]
    ensures if Touches(free[i], run) then Listed(was, seen + 1, run0, Remove(free, i), i)
            else Listed(was, seen + 1, run0, free, i + 1) && SameTouch(was, seen + 1, run, run0)
  {
    assert free[i..][0] == was[seen..][0];
    assert was[..seen + 1][..seen] == was[..seen];
    assert free[i + 1..] == free[i..][1..] == was[seen..][1..] == was[seen + 1..];
    if Touches(free[i], run) {
      assert Remove(free, i)[..i] == free[..i] && Remove(free, i)[i..] == free[i + 1..];
    } else {
      assert free[..i + 1] == free[..i] + [free[i]];
    }
  }

  lemma ListedAll(was: seq<FreeRun>, seen: nat, run0: FreeRun, free: seq<FreeRun>)
    requires Listed(was, seen, run0, free, |free|)
    ensures free == Untouched(was, run0)
  {
    assert free[|free|..] == [];
    assert seen == |was| && was[..seen] == was && free[..|free|] == free;
  }

  lemma MergedPages(free: seq<FreeRun>, z: set<nat>, i: nat, run: FreeRun, merged: FreeRun)
    requires Cover(free, z) && i < |free| && run.len > 0 && z !! run.Pages() && Touches(free[i], run)
    requires merged == FreeRun(if free[i].base < run.base then free[i].base else run.base, run.len + free[i].len)
    requires forall k :: 0 <= k < i ==> free[k].Separate(run)
    ensures merged.Pages() == run.Pages() + free[i].Pages() && free[i].Pages() <= z && free[i].len > 0
    ensures forall k :: 0 <= k < i ==> free[k].Separate(merged)
    ensures free[i].base + free[i].len == run.base ==> merged.base == free[i].base
    ensures free[i].base + free[i].len != run.base ==> merged.base == run.base
  {
    forall k | 0 <= k < i
      ensures free[k].Separate(merged)
    {
      assert free[k].Separate(free[i]) && free[k].Separate(run);
    }
  }

  lemma NotTouching(free: seq<FreeRun>, z: set<nat>, i: nat, run: FreeRun)
    requires Cover(free, z) && i < |free| && run.len > 0 && z !! run.Pages() && !Touches(free[i], run)
    ensures free[i].Separate(run)
  {
    var other := free[i];
    assert other.base in other.Pages() && run.base in run.Pages();
    assert other.base !in run.Pages() && run.base !in other.Pages();
  }

  /** Merging a run with one of the list makes it touch no further one. */
  lemma MergedTouches(free: seq<FreeRun>, z: set<nat>, i: nat, run: FreeRun, merged: FreeRun, run0: FreeRun)
    requires Cover(free, z) && i < |free| && run.len > 0 && SameTouch(free, i, run, run0)
    requires merged.len == run.len + free[i].len
    requires if free[i].base + free[i].len == run.base then merged.base == free[i].base
             else run.base + run.len == free[i].base && merged.base == run.base
    ensures SameTouch(free, i + 1, merged, run0)
  {
    forall k | i < k < |free|
      ensures Touches(free[k], merged) <==> Touches(free[k], run0)
    {
      assert free[i].Separate(free[k]) && free[k].len > 0 && free[i].len > 0;
      assert Touches(free[k], run) <==> Touches(free[k], run0);
    }
  }

  // ---- runs of released pages ----------------------------------------------------------------------------

  /** Ascending, pairwise separated runs over exactly the pages of `s`. */
  ghost predicate Grouped(runs: seq<FreeRun>, s: seq<nat>) {
    && (forall i :: 0 <= i < |runs| ==> runs[i].len > 0 && forall p :: p in runs[i].Pages() ==> p in s)
    && (forall p :: p in s ==> exists i :: 0 <= i < |runs| && p in runs[i].Pages())
    && (forall i, j :: 0 <= i < j < |runs| ==> runs[i].base + runs[i].len < runs[j].base)
  }

  predicate Ascending(s: seq<nat>) {
    forall i, j :: 0 <= i < j < |s| ==> s[i] < s[j]
  }

  lemma AscendingPush(s: seq<nat>, p: nat)
    requires Ascending(s) && forall q :: q in s ==> q < p
    ensures Ascending(s + [p])
  {
    forall i, j | 0 <= i < j < |s + [p]|
      ensures (s + [p])[i] < (s + [p])[j]
    {
      assert s[i] in s;
    }
  }

  ghost function Union(runs: seq<FreeRun>): set<nat> {
    if runs == [] then {} else Union(runs[..|runs| - 1]) + runs[|runs| - 1].Pages()
  }

  lemma {:induction false} UnionIs(runs: seq<FreeRun>)
    ensures forall p :: p in Union(runs) <==> exists i :: 0 <= i < |runs| && p in runs[i].Pages()
  {
    if runs != [] {
      var rest := runs[..|runs| - 1];
      UnionIs(rest);
      forall p
        ensures p in Union(runs) <==> exists i :: 0 <= i < |runs| && p in runs[i].Pages()
      {
        if i :| 0 <= i < |runs| && p in runs[i].Pages() {
          if i < |rest| {
            assert rest[i] == runs[i];
          }
        }
        if p in Union(rest) {
          var i :| 0 <= i < |rest| && p in rest[i].Pages();
          assert rest[i] == runs[i];
        }
      }
    }
  }

  /** Put one more page, larger than all before, on the end. */
  function Extend(runs: seq<FreeRun>, p: nat): seq<FreeRun> {
    if |runs| > 0 && runs[|runs| - 1].base + runs[|runs| - 1].len == p then
      runs[|runs| - 1 := FreeRun(runs[|runs| - 1].base, runs[|runs| - 1].len + 1)]
    else runs + [FreeRun(p, 1)]
  }

  lemma ExtendGroups(runs: seq<FreeRun>, s: seq<nat>, p: nat)
    requires Grouped(runs, s) && forall q :: q in s ==> q < p
    ensures Grouped(Extend(runs, p), s + [p])
  {
    var r, n := Extend(runs, p), |runs|;
    if n > 0 {
      assert runs[n - 1].base + runs[n - 1].len - 1 in runs[n - 1].Pages();
    }
    forall q | q in s + [p]
      ensures exists i :: 0 <= i < |r| && q in r[i].Pages()
    {
      ExtendCovers(runs, s, p, q);
    }
    forall i, q | 0 <= i < |r| && q in r[i].Pages()
      ensures q in s + [p]
    {
      if q != p {
        assert q in runs[i].Pages();
      }
    }
    ExtendOrdered(runs, s, p);
  }

  lemma ExtendCovers(runs: seq<FreeRun>, s: seq<nat>, p: nat, q: nat)
    requires Grouped(runs, s) && q in s + [p]
    ensures exists i :: 0 <= i < |Extend(runs, p)| && q in Extend(runs, p)[i].Pages()
  {
    var r := Extend(runs, p);
    if q in s {
      var i :| 0 <= i < |runs| && q in runs[i].Pages();
      assert q in r[i].Pages();
    } else {
      assert p in r[|r| - 1].Pages();
    }
  }

  lemma ExtendOrdered(runs: seq<FreeRun>, s: seq<nat>, p: nat)
    requires Grouped(runs, s) && forall q :: q in s ==> q < p
    ensures var r := Extend(runs, p); forall i, j :: 0 <= i < j < |r| ==> r[i].base + r[i].len < r[j].base
  {
    var r, n := Extend(runs, p), |runs|;
    if n > 0 {
      assert runs[n - 1].base + runs[n - 1].len - 1 in runs[n - 1].Pages();
    }
    forall i, j | 0 <= i < j < |r|
      ensures r[i].base + r[i].len < r[j].base
    {
      if j == n {
        assert runs[i].base + runs[i].len - 1 in runs[i].Pages();
        assert i < n - 1 ==> runs[i].base + runs[i].len < runs[n - 1].base;
      }
    }
  }

  // ---- the pool ----------------------------------------------------------------------------------------

  lemma NoGroups(zeroed: seq<nat>)
    ensures Grouped([], zeroed[..0])
  {
  }

  lemma ExtendNext(zeroed: seq<nat>, i: nat, runs: seq<FreeRun>)
    requires Ascending(zeroed) && i < |zeroed| && Grouped(runs, zeroed[..i])
    ensures Grouped(Extend(runs, zeroed[i]), zeroed[..i + 1])
  {
    hide Grouped, Extend;
    assert forall q :: q in zeroed[..i] ==> q < zeroed[i];
    ExtendGroups(runs, zeroed[..i], zeroed[i]);
    assert zeroed[..i] + [zeroed[i]] == zeroed[..i + 1];
  }

  /** Coalesce an ascending list of pages into its maximal runs. */
  method GroupRuns(zeroed: seq<nat>) returns (runs: seq<FreeRun>)
    requires Ascending(zeroed)
    ensures Grouped(runs, zeroed)
  {
    hide Grouped, Extend;
    runs := [];
    var i := 0;
    NoGroups(zeroed);
    while i < |zeroed|
      invariant 0 <= i <= |zeroed| && Grouped(runs, zeroed[..i])
    {
      ExtendNext(zeroed, i, runs);
      runs := Extend(runs, zeroed[i]);
      i := i + 1;
    }
    assert zeroed[..i] == zeroed;
  }

  class Pool {
    const refs: array<nat>
    var free: seq<FreeRun>

    ghost predicate Valid()
      reads this, refs
    {
      Cover(free, ZeroPages(refs[..]))
    }

    constructor (total: nat)
      ensures Valid() && fresh(refs) && refs[..] == seq(total, _ => 0)
    {
      refs := new nat[total](_ => 0);
      free := if total == 0 then [] else [FreeRun(0, total)];
      new;
      assert refs[..] == seq(total, _ => 0);
      if total > 0 {
        forall p | p in ZeroPages(refs[..])
          ensures p in free[0].Pages()
        {
        }
      }
    }

    /** First fit.  Because the runs are maximal it succeeds exactly when some window of `n`
        contiguous pages is free, and what it hands out starts where a live page (or the
        pool) ends. */
    method Alloc(n: nat) returns (r: Option<nat>)
      requires Valid()
      modifies this, refs
      ensures Valid()
      ensures r.Some? <==> n > 0 && exists base :: AllZero(old(refs[..]), base, n)
      ensures r.Some? ==>
                && AllZero(old(refs[..]), r.value, n)
                && refs[..] == TakeRefs(old(refs[..]), r.value, n)
                && (r.value > 0 ==> old(refs[..])[r.value - 1] > 0)
      ensures r.Some? ==> TookFirst(old(free), n, r.value, free)
      ensures r.None? ==> refs[..] == old(refs[..]) && free == old(free)
    {
      hide TookFirst, Carved;
      if n == 0 { return None; }
      ghost var before, z := refs[..], ZeroPages(refs[..]);
      var i := 0;
      while i < |free| && free[i].len < n
        invariant 0 <= i <= |free|
        invariant forall k :: 0 <= k < i ==> free[k].len < n
      {
        i := i + 1;
      }
      if i == |free| {
        if base :| AllZero(before, base, n) {
          var k := WindowInRun(free, z, base, n);
        }
        return None;
      }
      var run := free[i];
      WindowZero(before, run, run.base, n);
      Maximal(free, z, i);
      var left := FreeRun(run.base + n, run.len - n);
      CarveCover(free, z, i, FreeRun(run.base, n), left);
      FirstTaken(free, n, i);
      TakeZero(before, run.base, n);
      free := Carved(free, i, left);
      Take(run.base, n);
      r := Some(run.base);
    }

    /** First fit from the back of the list, at the end of the run. */
    method AllocFromEnd(n: nat) returns (r: Option<nat>)
      requires Valid()
      modifies this, refs
      ensures Valid()
      ensures r.Some? <==> n > 0 && exists base :: AllZero(old(refs[..]), base, n)
      ensures r.Some? ==>
                && AllZero(old(refs[..]), r.value, n)
                && refs[..] == TakeRefs(old(refs[..]), r.value, n)
                && (r.value + n < refs.Length ==> old(refs[..])[r.value + n] > 0)
      ensures r.Some? ==> TookLast(old(free), n, r.value, free)
      ensures r.None? ==> refs[..] == old(refs[..]) && free == old(free)
    {
      hide TookLast, Carved;
      if n == 0 { return None; }
      ghost var before, z := refs[..], ZeroPages(refs[..]);
      var i := |free|;
      while i > 0 && free[i - 1].len < n
        invariant 0 <= i <= |free|
        invariant forall k :: i <= k < |free| ==> free[k].len < n
      {
        i := i - 1;
      }
      if i == 0 {
        if base :| AllZero(before, base, n) {
          var k := WindowInRun(free, z, base, n);
        }
        return None;
      }
      i := i - 1;
      var run := free[i];
      var base := run.base + run.len - n;
      WindowZero(before, run, base, n);
      Maximal(free, z, i);
      var left := FreeRun(run.base, run.len - n);
      CarveCover(free, z, i, FreeRun(base, n), left);
      LastTaken(free, n, i);
      TakeZero(before, base, n);
      free := Carved(free, i, left);
      Take(base, n);
      r := Some(base);
    }

    /** Reference count 1 on a window of free pages. */
    method Take(base: nat, n: nat)
      requires AllZero(refs[..], base, n)
      modifies refs
      ensures refs[..] == TakeRefs(old(refs[..]), base, n)
    {
      var p := base;
      while p < base + n
        invariant base <= p <= base + n
        invariant forall q :: 0 <= q < refs.Length ==> refs[q] == if base <= q < p then 1 else old(refs[q])
      {
        refs[p] := 1;
        p := p + 1;
      }
    }

    /** One more reference on every page of a live window. */
    method Ref(base: nat, n: nat)
      requires Valid() && AllHeld(refs[..], base, n)
      modifies refs
      ensures Valid() && refs[..] == RefPages(old(refs[..]), base, n)
    {
      var p := base;
      while p < base + n
        invariant base <= p <= base + n
        invariant forall q :: 0 <= q < refs.Length ==>
                    refs[q] == if base <= q < p then old(refs[q]) + 1 else old(refs[q])
      {
        refs[p] := refs[p] + 1;
        p := p + 1;
      }
      assert ZeroPages(refs[..]) == ZeroPages(old(refs[..]));
    }

    /** One reference less on every page of a live window; the pages that lose their last one
        go back to the free list, coalesced. */
    method Drop(base: nat, n: nat)
      requires Valid() && AllHeld(refs[..], base, n)
      modifies this, refs
      ensures Valid() && refs[..] == DropRefs(old(refs[..]), base, n)
      ensures forall p :: LastFreed(old(refs[..]), base, n, p) ==> free != [] && p in free[0].Pages()
    {
      hide LastFreed, Grouped, Union, Cover, DropRefs;
      ghost var before := refs[..];
      assert Cover(free, ZeroPages(before));
      var zeroed := Unref(base, n);
      var runs := GroupRuns(zeroed);
      var i := 0;
      NoUnion(before, runs);
      while i < |runs|
        invariant 0 <= i <= |runs|
        invariant Cover(free, ZeroPages(before) + Union(runs[..i])) && refs[..] == DropRefs(before, base, n)
        invariant i > 0 ==> free != [] && runs[i - 1].Pages() <= free[0].Pages()
      {
        GroupApart(before, base, n, zeroed, runs, i);
        InsertRun(runs[i], ZeroPages(before) + Union(runs[..i]));
        i := i + 1;
      }
      assert runs[..i] == runs;
      LastGroup(before, base, n, zeroed, runs);
      AllGrouped(zeroed, runs);
      DropZero(before, base, n, Union(runs));
    }

    /** The counting half of `Drop`: the pages that reached zero, in order. */
    method Unref(base: nat, n: nat) returns (zeroed: seq<nat>)
      requires AllHeld(refs[..], base, n)
      modifies refs
      ensures refs[..] == DropRefs(old(refs[..]), base, n)
      ensures Ascending(zeroed)
      ensures forall p :: p in zeroed <==> base <= p < base + n && old(refs[..])[p] == 1
    {
      zeroed := [];
      var p := base;
      while p < base + n
        invariant base <= p <= base + n
        invariant forall q :: 0 <= q < refs.Length ==>
                    refs[q] == if base <= q < p then old(refs[q]) - 1 else old(refs[q])
        invariant forall q :: q in zeroed <==> base <= q < p && old(refs[q]) == 1
        invariant Ascending(zeroed)
      {
        refs[p] := refs[p] - 1;
        if refs[p] == 0 {
          assert forall q :: q in zeroed ==> q < p;
          AscendingPush(zeroed, p);
          zeroed := zeroed + [p];
        }
        p := p + 1;
      }
    }

    /** Put a run at the front of the list, merged with whatever touches it. */
    method InsertRun(run0: FreeRun, ghost z: set<nat>)
      requires Cover(free, z) && run0.len > 0 && run0.Pages() !! z
      modifies `free
      ensures Cover(free, z + run0.Pages())
      ensures free != [] && run0.Pages() <= free[0].Pages() && free[1..] == Untouched(old(free), run0)
    {
      hide Listed, SameTouch, Untouched, Cover;
      var run, i := run0, 0;
      ghost var zf, was, seen := z, free, 0;
      ListedStart(free, run0);
      while i < |free|
        invariant 0 <= i <= |free| && run.len > 0
        invariant Cover(free, zf) && zf !! run.Pages()
        invariant zf + run.Pages() == z + run0.Pages()
        invariant forall k :: 0 <= k < i ==> free[k].Separate(run)
        invariant Listed(was, seen, run0, free, i) && SameTouch(was, seen, run, run0) && run0.Pages() <= run.Pages()
        decreases |free| - i
      {
        var other := free[i];
        ListedNext(was, seen, run0, run, free, i);
        if other.base + other.len == run.base || run.base + run.len == other.base {
          var merged := FreeRun(if other.base < run.base then other.base else run.base, run.len + other.len);
          MergedPages(free, zf, i, run, merged);
          RemoveCover(free, zf, i);
          MergedTouches(was, z, seen, run, merged, run0);
          zf := zf - other.Pages();
          run := merged;
          free := Remove(free, i);
        } else {
          NotTouching(free, zf, i, run);
          i := i + 1;
        }
        seen := seen + 1;
      }
      PrependCover(free, zf, run);
      ListedAll(was, seen, run0, free);
      free := [run] + free;
    }
  }
}
