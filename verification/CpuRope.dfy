/** What the rotary embedding is for: rotating a query and a key leaves lengths alone and makes
    their score a function of the distance between their positions. */
module CpuRope {
  import opened Transformer
  import opened Requests
  import opened Arith
  import opened Matrix
  import opened CpuSpec

  /** The angles of pair `i` add up: cosine and sine of a difference of positions. */
  ghost predicate Angles(math: Math) {
    forall a: nat, b: nat, i: nat {:trigger math.cos(a, i), math.cos(b, i)} :: b <= a ==>
      && math.cos(a - b, i) == math.cos(a, i) * math.cos(b, i) + math.sin(a, i) * math.sin(b, i)
      && math.sin(a - b, i) == math.sin(a, i) * math.cos(b, i) - math.cos(a, i) * math.sin(b, i)
  }

  function Both(x: real, y: real, u: real, v: real): real {
    x * u + y * v
  }

  /** Products of the pairs `(i, half + i)`, for `i < j`. */
  function Pairs(a: Vec, b: Vec, half: nat, j: nat): real
    requires j <= half && 2 * half <= |a| == |b|
  {
    if j == 0 then 0.0
    else Pairs(a, b, half, j - 1) + Both(a[j - 1], a[half + j - 1], b[j - 1], b[half + j - 1])
  }

  lemma {:induction false} PairsAre(a: Vec, b: Vec, half: nat, j: nat)
    requires j <= half && 2 * half <= |a| == |b|
    ensures Pairs(a, b, half, j) == Dot(a, b, j) + (Dot(a, b, half + j) - Dot(a, b, half))
  {
    if j > 0 {
      PairsAre(a, b, half, j - 1);
      assert half + j - 1 == half + (j - 1);
    }
  }

  lemma PairTurned(x: real, y: real, u: real, v: real, ca: real, sa: real, cb: real, sb: real)
    ensures (x * ca - y * sa) * (u * cb - v * sb) + (x * sa + y * ca) * (u * sb + v * cb)
         == (x * u + y * v) * (ca * cb + sa * sb) + (x * v - y * u) * (sa * cb - ca * sb)
  {
    Four(x * ca, y * sa, u * cb, v * sb);
    Four(x * sa, -(y * ca), u * sb, -(v * cb));
    assert (x * ca) * (u * cb) == (x * u) * (ca * cb);
    assert (x * ca) * (v * sb) == (x * v) * (ca * sb);
    assert (y * sa) * (u * cb) == (y * u) * (sa * cb);
    assert (y * sa) * (v * sb) == (y * v) * (sa * sb);
    assert (x * sa) * (u * sb) == (x * u) * (sa * sb);
    assert (x * sa) * (v * cb) == (x * v) * (sa * cb);
    assert (y * ca) * (u * sb) == (y * u) * (ca * sb);
    assert (y * ca) * (v * cb) == (y * v) * (ca * cb);
  }

  lemma Four(a: real, b: real, c: real, d: real)
    ensures (a - b) * (c - d) == a * c - a * d - b * c + b * d
  {
  }

  /** The product of two pairs, one of them turned by an angle of cosine `c` and sine `s`. */
  function Turned(x: real, y: real, u: real, v: real, c: real, s: real): real {
    (x * u + y * v) * c + (x * v - y * u) * s
  }

  function TurnedPairs(math: Math, a: Vec, b: Vec, half: nat, dist: nat, j: nat): real
    requires j <= half && 2 * half <= |a| == |b|
  {
    if j == 0 then 0.0
    else
      TurnedPairs(math, a, b, half, dist, j - 1)
      + Turned(a[j - 1], a[half + j - 1], b[j - 1], b[half + j - 1], math.cos(dist, j - 1), math.sin(dist, j - 1))
  }

  lemma AnglesAt(math: Math, a: nat, b: nat, i: nat)
    requires Angles(math) && b <= a
    ensures math.cos(a - b, i) == math.cos(a, i) * math.cos(b, i) + math.sin(a, i) * math.sin(b, i)
    ensures math.sin(a - b, i) == math.sin(a, i) * math.cos(b, i) - math.cos(a, i) * math.sin(b, i)
  {
  }

  lemma RopedAt(math: Math, a: Vec, half: nat, m: nat, i: nat)
    requires i < half && 2 * half <= |a|
    ensures Roped(math, a, half, m)[i] == a[i] * math.cos(m, i) - a[half + i] * math.sin(m, i)
    ensures Roped(math, a, half, m)[half + i] == a[i] * math.sin(m, i) + a[half + i] * math.cos(m, i)
  {
  }

  /** The direction: what lies on the first axis of pair `i` goes to the cosine on it and the sine on
      the second one. */
  lemma RotatesForward(math: Math, a: Vec, half: nat, m: nat, i: nat)
    requires i < half && 2 * half <= |a| && a[i] == 1.0 && a[half + i] == 0.0
    ensures Roped(math, a, half, m)[i] == math.cos(m, i) && Roped(math, a, half, m)[half + i] == math.sin(m, i)
  {
    RopedAt(math, a, half, m, i);
  }

  lemma PairProduct(p: real, q: real, r: real, w: real, x: real, y: real, u: real, v: real,
                    ca: real, sa: real, cb: real, sb: real, c: real, s: real)
    requires p == x * ca - y * sa && q == x * sa + y * ca && r == u * cb - v * sb && w == u * sb + v * cb
    requires c == ca * cb + sa * sb && s == sa * cb - ca * sb
    ensures p * r + q * w == Turned(x, y, u, v, c, s)
  {
    PairTurned(x, y, u, v, ca, sa, cb, sb);
  }

  lemma {:induction false} RopedPair(math: Math, a: Vec, b: Vec, half: nat, m: nat, n: nat, i: nat, ra: Vec, rb: Vec)
    requires Angles(math) && n <= m && i < half && 2 * half <= |a| == |b| == |ra| == |rb|
    requires ra == Roped(math, a, half, m) && rb == Roped(math, b, half, n)
    ensures Both(ra[i], ra[half + i], rb[i], rb[half + i])
         == Turned(a[i], a[half + i], b[i], b[half + i], math.cos(m - n, i), math.sin(m - n, i))
  {
    hide Angles, Roped, Turned;
    RopedAt(math, a, half, m, i);
    RopedAt(math, b, half, n, i);
    AnglesAt(math, m, n, i);
    PairProduct(ra[i], ra[half + i], rb[i], rb[half + i], a[i], a[half + i], b[i], b[half + i],
                math.cos(m, i), math.sin(m, i), math.cos(n, i), math.sin(n, i), math.cos(m - n, i), math.sin(m - n, i));
  }

  lemma {:induction false} RopedPairs(math: Math, a: Vec, b: Vec, half: nat, m: nat, n: nat, j: nat)
    requires Angles(math) && n <= m && j <= half && 2 * half <= |a| == |b|
    ensures Pairs(Roped(math, a, half, m), Roped(math, b, half, n), half, j) == TurnedPairs(math, a, b, half, m - n, j)
  {
    hide Turned, Roped, Angles, Both;
    if j > 0 {
      RopedPairs(math, a, b, half, m, n, j - 1);
      RopedPair(math, a, b, half, m, n, j - 1, Roped(math, a, half, m), Roped(math, b, half, n));
      assert half + j - 1 == half + (j - 1);
    }
  }

  lemma {:induction false} RopedDot(math: Math, a: Vec, b: Vec, half: nat, m: nat, n: nat, dist: nat)
    requires Angles(math) && m == n + dist && 2 * half <= |a| == |b|
    ensures Dot(Roped(math, a, half, m), Roped(math, b, half, n), 2 * half) == TurnedPairs(math, a, b, half, dist, half)
  {
    hide Angles, Roped, TurnedPairs, Pairs, Dot;
    RopedPairs(math, a, b, half, m, n, half);
    PairsAre(Roped(math, a, half, m), Roped(math, b, half, n), half, half);
  }

  /** Entries that are not rotated add the same whatever the positions. */
  lemma {:induction false} UnrotatedTail(math: Math, q: Vec, k: Vec, half: nat, m: nat, n: nat, m': nat, n': nat, t: nat)
    requires 2 * half <= t <= |q| == |k|
    requires Dot(Roped(math, q, half, m), Roped(math, k, half, n), 2 * half)
          == Dot(Roped(math, q, half, m'), Roped(math, k, half, n'), 2 * half)
    ensures Dot(Roped(math, q, half, m), Roped(math, k, half, n), t)
         == Dot(Roped(math, q, half, m'), Roped(math, k, half, n'), t)
    decreases t
  {
    hide Roped;
    if t > 2 * half {
      UnrotatedTail(math, q, k, half, m, n, m', n', t - 1);
      Unrotated(math, q, half, m, t - 1);
      Unrotated(math, k, half, n, t - 1);
      Unrotated(math, q, half, m', t - 1);
      Unrotated(math, k, half, n', t - 1);
    }
  }

  lemma Unrotated(math: Math, a: Vec, half: nat, m: nat, i: nat)
    requires 2 * half <= i < |a|
    ensures Roped(math, a, half, m)[i] == a[i]
  {
  }

  /** The score of a query `dist` positions after a key is that of the query at position `dist`
      and the key at the start, wherever they are. */
  lemma {:induction false} ScoreIsRelative(math: Math, q: Vec, k: Vec, half: nat, n: nat, dist: nat)
    requires Angles(math) && 2 * half <= |q| == |k|
    ensures Dot(Roped(math, q, half, n + dist), Roped(math, k, half, n), |q|)
         == Dot(Roped(math, q, half, dist), Roped(math, k, half, 0), |q|)
  {
    hide Angles, Roped, TurnedPairs, Dot;
    RopedDot(math, q, k, half, n + dist, n, dist);
    RopedDot(math, q, k, half, dist, 0, dist);
    UnrotatedTail(math, q, k, half, n + dist, n, dist, 0, |q|);
  }

  lemma {:induction false} StillPairs(math: Math, a: Vec, b: Vec, half: nat, j: nat)
    requires j <= half && 2 * half <= |a| == |b| && forall i: nat :: math.cos(0, i) == 1.0 && math.sin(0, i) == 0.0
    ensures TurnedPairs(math, a, b, half, 0, j) == Pairs(a, b, half, j)
  {
    if j > 0 {
      StillPairs(math, a, b, half, j - 1);
    }
  }

  /** Rotating both by the same position changes no product, so no length either. */
  lemma {:induction false} RotationKeepsDot(math: Math, a: Vec, b: Vec, half: nat, m: nat)
    requires Angles(math) && 2 * half <= |a| == |b| && forall i: nat :: math.cos(0, i) == 1.0 && math.sin(0, i) == 0.0
    ensures Dot(Roped(math, a, half, m), Roped(math, b, half, m), |a|) == Dot(a, b, |a|)
  {
    hide Angles, Roped, TurnedPairs, Pairs, Dot;
    RopedPairs(math, a, b, half, m, m, half);
    StillPairs(math, a, b, half, half);
    PairsAre(Roped(math, a, half, m), Roped(math, b, half, m), half, half);
    PairsAre(a, b, half, half);
    StillTail(math, a, b, half, m, |a|);
  }

  lemma {:induction false} StillTail(math: Math, a: Vec, b: Vec, half: nat, m: nat, t: nat)
    requires 2 * half <= t <= |a| == |b|
    requires Dot(Roped(math, a, half, m), Roped(math, b, half, m), 2 * half) == Dot(a, b, 2 * half)
    ensures Dot(Roped(math, a, half, m), Roped(math, b, half, m), t) == Dot(a, b, t)
    decreases t
  {
    hide Roped;
    if t > 2 * half {
      StillTail(math, a, b, half, m, t - 1);
      Unrotated(math, a, half, m, t - 1);
      Unrotated(math, b, half, m, t - 1);
    }
  }

  // ---- heads -----------------------------------------------------------------------------------------

  /** Every head is rotated by itself. */
  lemma HeadRoped(math: Math, x: Vec, heads: nat, d: nat, pos: nat, h: nat)
    requires |x| == heads * d && h < heads
    ensures At(h, d, d) <= |x| && HeadOf(RopedHeads(math, x, heads, d, pos), h, d) == Roped(math, HeadOf(x, h, d), d / 2, pos)
  {
    HeadFits(h, heads, d);
    var r, y := RopedHeads(math, x, heads, d, pos), Roped(math, HeadOf(x, h, d), d / 2, pos);
    forall i | 0 <= i < d
      ensures HeadOf(r, h, d)[i] == y[i]
    {
      AtBound(h, heads, d, i);
      AtDiv(h, d, i);
    }
  }

  /** Queries and keys of the network: head by head, the score depends on how far apart they are. */
  lemma {:induction false} QueryKeyRelative(net: CpuNet, l: Layer, x: Vec, y: Vec, n: nat, dist: nat, h: nat, kh: nat)
    requires net.Ok() && net.LayerOk(l) && |x| == |y| == net.hidden && h < net.qHeads && kh < net.kvHeads
    requires Angles(net.math)
    ensures At(h, net.d, net.d) <= net.qHeads * net.d && At(kh, net.d, net.d) <= net.kvHeads * net.d
    ensures Dot(HeadOf(net.Query(l, x, n + dist), h, net.d), HeadOf(net.KeyValue(l, y, n).k, kh, net.d), net.d)
         == Dot(HeadOf(net.Query(l, x, dist), h, net.d), HeadOf(net.KeyValue(l, y, 0).k, kh, net.d), net.d)
  {
    hide CpuNet.Project, CpuNet.RmsNorm, WithBias, RopedHeads, Roped, Angles, Dot, HeadOf;
    HeadFits(h, net.qHeads, net.d);
    HeadFits(kh, net.kvHeads, net.d);
    var math, d := net.math, net.d;
    var q := WithBias(net.Project(net.RmsNorm(x, l.attnNorm), l.q, net.qHeads * d, net.hidden), l.qBias);
    var k := WithBias(net.Project(net.RmsNorm(y, l.attnNorm), l.k, net.kvHeads * d, net.hidden), l.kBias);
    HeadRoped(math, q, net.qHeads, d, n + dist, h);
    HeadRoped(math, q, net.qHeads, d, dist, h);
    HeadRoped(math, k, net.kvHeads, d, n, kh);
    HeadRoped(math, k, net.kvHeads, d, 0, kh);
    DivMod(d, 2);
    ScoreIsRelative(math, HeadOf(q, h, d), HeadOf(k, kh, d), d / 2, n, dist);
  }

  /** The values of a position are not rotated. */
  lemma ValuesStay(net: CpuNet, l: Layer, x: Vec, m: nat, n: nat)
    requires net.Ok() && net.LayerOk(l) && |x| == net.hidden
    ensures net.KeyValue(l, x, m).v == net.KeyValue(l, x, n).v
  {
  }
}
