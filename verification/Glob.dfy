/** The iterative wildcard matcher, with one remembered star, against the recursive language. */
module Glob {
  import opened Requests

  /** `*` stands for any run of characters, `/` included, and `?` for any one character. */
  predicate Matches(pat: string, name: string)
    decreases |pat| + |name|
  {
    if pat == "" then name == ""
    else if pat[0] == '*' then Matches(pat[1..], name) || (name != "" && Matches(pat, name[1..]))
    else name != "" && (pat[0] == '?' || pat[0] == name[0]) && Matches(pat[1..], name[1..])
  }

  /** The rest of the pattern matches the rest of the name. */
  predicate From(pat: string, src: string, p: nat, s: nat) {
    p <= |pat| && s <= |src| && Matches(pat[p..], src[s..])
  }

  predicate AllStars(pat: string, p: nat) {
    forall i :: p <= i < |pat| ==> pat[i] == '*'
  }

  /** The scan from one state of its four variables, as the loop performs it. */
  predicate Scan(pat: string, src: string, p: nat, s: nat, star: Option<nat>, starS: nat)
    requires StateOk(pat, src, p, s, star, starS)
    decreases |src| - starS, |pat| - p
  {
    if s == |src| then AllStars(pat, p)
    else if p < |pat| && (pat[p] == '?' || pat[p] == src[s]) then Scan(pat, src, p + 1, s + 1, star, starS)
    else if p < |pat| && pat[p] == '*' then Scan(pat, src, p + 1, s, Some(p), s)
    else if star.Some? then Scan(pat, src, star.value + 1, starS + 1, star, starS + 1)
    else false
  }

  predicate StateOk(pat: string, src: string, p: nat, s: nat, star: Option<nat>, starS: nat) {
    p <= |pat| && starS <= s <= |src| && (star.Some? ==> star.value < p && pat[star.value] == '*')
  }

  predicate Decides(pat: string, name: string) {
    Scan(pat, name, 0, 0, None, 0)
  }

  /** The loop itself. */
  method GlobMatch(pat: string, src: string) returns (r: bool)
    ensures r == Decides(pat, src)
    ensures r ==> Matches(pat, src)
    ensures '*' !in src ==> (r <==> Matches(pat, src))
  {
    var p: nat, s: nat, starS: nat := 0, 0, 0;
    var star: Option<nat> := None;
    if Decides(pat, src) {
      Sound(pat, src, 0, 0, None, 0);
    }
    if '*' !in src {
      Complete(pat, src, 0, 0, None, 0);
    }
    assert pat[0..] == pat && src[0..] == src;
    while s < |src|
      invariant StateOk(pat, src, p, s, star, starS)
      invariant Scan(pat, src, p, s, star, starS) == Decides(pat, src)
      decreases |src| - starS, |pat| - p
    {
      if p < |pat| && (pat[p] == '?' || pat[p] == src[s]) {
        p := p + 1;
        s := s + 1;
      } else if p < |pat| && pat[p] == '*' {
        star := Some(p);
        p := p + 1;
        starS := s;
      } else if star.Some? {
        p := star.value + 1;
        starS := starS + 1;
        s := starS;
      } else {
        return false;
      }
    }
    ghost var from := p;
    while p < |pat| && pat[p] == '*'
      invariant from <= p <= |pat| && forall i :: from <= i < p ==> pat[i] == '*'
    {
      p := p + 1;
    }
    r := p == |pat|;
  }

  // ---- facts about the language --------------------------------------------------------------------

  lemma Tails(pat: string, src: string, p: nat, s: nat)
    requires p <= |pat| && s <= |src|
    ensures p < |pat| ==> pat[p..][1..] == pat[p + 1..] && pat[p..][0] == pat[p]
    ensures s < |src| ==> src[s..][1..] == src[s + 1..] && src[s..][0] == src[s]
  {
  }

  /** A star may absorb any stretch. */
  lemma {:induction false} StarAbsorbs(pat: string, src: string, p: nat, s: nat, j: nat)
    requires p < |pat| && pat[p] == '*' && s <= j && From(pat, src, p + 1, j)
    ensures From(pat, src, p, s)
    decreases j - s
  {
    Tails(pat, src, p, s);
    if s < j {
      StarAbsorbs(pat, src, p, s + 1, j);
    }
  }

  lemma {:induction false} StarReaches(pat: string, src: string, p: nat, s: nat) returns (j: nat)
    requires p < |pat| && pat[p] == '*' && From(pat, src, p, s)
    ensures s <= j && From(pat, src, p + 1, j)
    decreases |src| - s
  {
    Tails(pat, src, p, s);
    if From(pat, src, p + 1, s) {
      j := s;
    } else {
      j := StarReaches(pat, src, p, s + 1);
    }
  }

  lemma {:induction false} StarsMatchNothing(pat: string, src: string, p: nat)
    requires p <= |pat|
    ensures From(pat, src, p, |src|) <==> AllStars(pat, p)
    decreases |pat| - p
  {
    Tails(pat, src, p, |src|);
    if p < |pat| {
      StarsMatchNothing(pat, src, p + 1);
    }
  }

  /** A later start with a star at hand is no better than an earlier one. */
  lemma StarEarlier(pat: string, src: string, p: nat, s: nat, j: nat)
    requires p < |pat| && pat[p] == '*' && s <= j && From(pat, src, p, j)
    ensures From(pat, src, p, s)
  {
    var k := StarReaches(pat, src, p, j);
    StarAbsorbs(pat, src, p, s, k);
  }

  /** A star-free stretch of pattern consumes one character each. */
  lemma {:induction false} Stretch(pat: string, src: string, a: nat, p: nat, j: nat)
    requires a <= p <= |pat| && (forall i :: a <= i < p ==> pat[i] != '*') && From(pat, src, a, j)
    ensures From(pat, src, p, j + (p - a))
    decreases p - a
  {
    if a < p {
      Tails(pat, src, a, j);
      Stretch(pat, src, a + 1, p, j + 1);
    }
  }

  // ---- soundness -------------------------------------------------------------------------------------

  /** Some restart of the remembered star would succeed. */
  ghost predicate Restart(pat: string, src: string, star: Option<nat>, starS: nat) {
    star.Some? && var a := star.value + 1; exists j :: starS < j && From(pat, src, a, j)
  }

  lemma RestartAt(pat: string, src: string, star: Option<nat>, starS: nat, j: nat)
    requires star.Some? && starS < j && From(pat, src, star.value + 1, j)
    ensures Restart(pat, src, star, starS)
  {
    var a := star.value + 1;
    assert From(pat, src, a, j);
  }

  lemma RestartGives(pat: string, src: string, star: Option<nat>, starS: nat) returns (j: nat)
    requires Restart(pat, src, star, starS)
    ensures star.Some? && starS < j && From(pat, src, star.value + 1, j)
  {
    var a := star.value + 1;
    j :| starS < j && From(pat, src, a, j);
  }

  lemma {:induction false} Sound(pat: string, src: string, p: nat, s: nat, star: Option<nat>, starS: nat)
    requires StateOk(pat, src, p, s, star, starS) && Scan(pat, src, p, s, star, starS)
    ensures From(pat, src, p, s) || Restart(pat, src, star, starS)
    decreases |src| - starS, |pat| - p
  {
    Tails(pat, src, p, s);
    if s == |src| {
      StarsMatchNothing(pat, src, p);
    } else if p < |pat| && (pat[p] == '?' || pat[p] == src[s]) {
      Sound(pat, src, p + 1, s + 1, star, starS);
      if From(pat, src, p + 1, s + 1) && pat[p] == '*' {
        StarAbsorbs(pat, src, p, s, s + 1);
      }
    } else if p < |pat| && pat[p] == '*' {
      Sound(pat, src, p + 1, s, Some(p), s);
      if From(pat, src, p + 1, s) {
        StarAbsorbs(pat, src, p, s, s);
      } else {
        var j := RestartGives(pat, src, Some(p), s);
        StarAbsorbs(pat, src, p, s, j);
      }
    } else {
      Sound(pat, src, star.value + 1, starS + 1, star, starS + 1);
      if From(pat, src, star.value + 1, starS + 1) {
        RestartAt(pat, src, star, starS, starS + 1);
      } else {
        var j := RestartGives(pat, src, star, starS + 1);
        RestartAt(pat, src, star, starS, j);
      }
    }
  }

  // ---- completeness ------------------------------------------------------------------------------------

  /** Since the remembered star only literals and `?` have been consumed, one character each. */
  predicate Aligned(pat: string, p: nat, s: nat, star: Option<nat>, starS: nat)
    requires p <= |pat|
  {
    star.Some? ==> star.value < p && p - (star.value + 1) == s - starS && forall i :: star.value < i < p ==> pat[i] != '*'
  }

  /** One remembered star is enough: if the name has no star of its own, the scan succeeds
      whenever the rest matches here or after some restart. */
  lemma {:induction false} Complete(pat: string, src: string, p: nat, s: nat, star: Option<nat>, starS: nat)
    requires StateOk(pat, src, p, s, star, starS) && Aligned(pat, p, s, star, starS) && '*' !in src
    ensures From(pat, src, p, s) || Restart(pat, src, star, starS) ==> Scan(pat, src, p, s, star, starS)
    decreases |src| - starS, |pat| - p
  {
    Tails(pat, src, p, s);
    if s == |src| {
      StarsMatchNothing(pat, src, p);
      if Restart(pat, src, star, starS) {
        var j := RestartGives(pat, src, star, starS);
        Stretch(pat, src, star.value + 1, p, j);
        assert false;
      }
    } else if p < |pat| && (pat[p] == '?' || pat[p] == src[s]) {
      assert src[s] in src;
      Complete(pat, src, p + 1, s + 1, star, starS);
    } else if p < |pat| && pat[p] == '*' {
      if Restart(pat, src, star, starS) {
        var j := RestartGives(pat, src, star, starS);
        Stretch(pat, src, star.value + 1, p, j);
        StarEarlier(pat, src, p, s, j + (p - (star.value + 1)));
      }
      if From(pat, src, p, s) {
        var j := StarReaches(pat, src, p, s);
        if j != s {
          RestartAt(pat, src, Some(p), s, j);
        }
      }
      Complete(pat, src, p + 1, s, Some(p), s);
    } else if star.Some? {
      Complete(pat, src, star.value + 1, starS + 1, star, starS + 1);
      if Restart(pat, src, star, starS) {
        var j := RestartGives(pat, src, star, starS);
        if j != starS + 1 {
          RestartAt(pat, src, star, starS + 1, j);
        }
      }
    }
  }

  // ---- exactly when --------------------------------------------------------------------------------------

  function Marks(n: nat): (r: string)
    ensures |r| == n && forall i :: 0 <= i < n ==> r[i] == '?'
  {
    seq(n, _ => '?')
  }

  /** A pattern decided wrongly for a name whose first star is at `i`: the matcher takes the
      pattern's star for the literal one and is a character short. */
  function Fooling(name: string, i: nat): (r: string)
    requires i < |name|
    ensures |r| == |name| + 1 && r[i] == '*'
    ensures forall k :: 0 <= k < i ==> r[k] == name[k]
    ensures forall k :: i < k < |r| ==> r[k] == '?'
  {
    name[..i] + "*" + Marks(|name| - i)
  }

  lemma FoolingMatches(name: string, i: nat)
    requires i < |name| && '*' !in name[..i]
    ensures Matches(Fooling(name, i), name)
  {
    var pat := Fooling(name, i);
    hide Fooling;
    MarksMatch(pat, name, i + 1, i);
    StarAbsorbs(pat, name, i, i, i);
    assert forall k :: 0 <= k < i ==> name[..i][k] == name[k];
    SameMatches(pat, name, i);
    assert pat[0..] == pat && name[0..] == name;
  }

  /** As many `?` as characters match them. */
  lemma {:induction false} MarksMatch(pat: string, src: string, p: nat, s: nat)
    requires p <= |pat| && s <= |src| && |pat| - p == |src| - s && forall i :: p <= i < |pat| ==> pat[i] == '?'
    ensures From(pat, src, p, s)
    decreases |pat| - p
  {
    Tails(pat, src, p, s);
    if p < |pat| {
      MarksMatch(pat, src, p + 1, s + 1);
    }
  }

  /** A common prefix can be put in front of a match. */
  lemma {:induction false} SameMatches(pat: string, src: string, n: nat)
    requires n <= |pat| && n <= |src| && From(pat, src, n, n)
    requires forall i :: 0 <= i < n ==> pat[i] == src[i] && pat[i] != '*'
    ensures From(pat, src, 0, 0)
  {
    if n > 0 {
      Tails(pat, src, n - 1, n - 1);
      SameMatches(pat, src, n - 1);
    }
  }

  /** Pattern character `k` meets name character `k` without a remembered star. */
  predicate Meets(pat: string, src: string, k: nat) {
    k < |pat| && if k < |src| then pat[k] == '?' || pat[k] == src[k] else pat[k] != '*'
  }

  /** The scan goes through meeting characters and fails at the end of the name. */
  lemma {:induction false} ScanSteps(pat: string, src: string, k: nat)
    requires k <= |src| < |pat| && forall i :: k <= i < |pat| ==> Meets(pat, src, i)
    ensures !Scan(pat, src, k, k, None, 0)
    decreases |src| - k
  {
    assert Meets(pat, src, k);
    if k < |src| {
      ScanSteps(pat, src, k + 1);
    }
  }

  /** For a given name the matcher decides every pattern correctly exactly when the name has no
      star in it. */
  lemma DecidesIff(name: string)
    ensures (forall pat {:trigger Decides(pat, name)} :: Decides(pat, name) <==> Matches(pat, name)) <==> '*' !in name
  {
    if '*' in name {
      var i := FirstStar(name);
      var pat := Fooling(name, i);
      FoolingMatches(name, i);
      ScanSteps(pat, name, 0);
      assert !Decides(pat, name);
    } else {
      forall pat {:trigger Decides(pat, name)}
        ensures Decides(pat, name) <==> Matches(pat, name)
      {
        assert pat[0..] == pat && name[0..] == name;
        Complete(pat, name, 0, 0, None, 0);
        if Decides(pat, name) {
          Sound(pat, name, 0, 0, None, 0);
        }
      }
    }
  }

  lemma {:induction false} FirstStar(name: string) returns (i: nat)
    requires '*' in name
    ensures i < |name| && name[i] == '*' && '*' !in name[..i]
  {
    if name[0] == '*' {
      i := 0;
    } else {
      assert name == [name[0]] + name[1..];
      var j := FirstStar(name[1..]);
      i := j + 1;
      assert name[..i] == [name[0]] + name[1..][..j];
    }
  }
}
