/** Laws of the CPU back end's operations: what is linear in what, what adds up to one, what a
    rotation leaves alone.  They hold for any exponential, sigmoid and root; where a law is about
    one of these functions, the property of the function it needs is its assumption. */
module CpuLaws {
  import opened Transformer
  import opened Requests
  import opened Arith
  import opened Matrix
  import opened CpuSpec

  function Scaled(a: real, x: Vec): (r: Vec)
    ensures |r| == |x|
  {
    seq(|x|, i requires 0 <= i < |x| => a * x[i])
  }

  function Zeros(n: nat): (r: Vec)
    ensures |r| == n
  {
    seq(n, _ => 0.0)
  }

  // ---- projections ---------------------------------------------------------------------------------

  /** Column `j` of a projection: the dot product of the input and that column. */
  lemma ProjectAt(net: CpuNet, x: Vec, w: Vec, n: nat, k: nat, j: nat)
    requires |x| == k && |w| == k * n && j < n
    ensures 1 * k == k && net.Project(x, w, n, k)[j] == Entry(x, w, 1, n, k, 0, j, k)
  {
    assert 1 * k == k && 1 * n == n && At(0, n, j) == j;
    ProductAt(x, w, 1, n, k, 0, j);
  }

  lemma {:induction false} EntryAdds(x: Vec, v: Vec, w: Vec, n: nat, k: nat, j: nat, t: nat)
    requires |x| == 1 * k && |v| == |w| == k * n && j < n && t <= k
    ensures Entry(x, Plus(v, w), 1, n, k, 0, j, t) == Entry(x, v, 1, n, k, 0, j, t) + Entry(x, w, 1, n, k, 0, j, t)
  {
    if t > 0 {
      EntryAdds(x, v, w, n, k, j, t - 1);
      EntryNext(x, v, 1, n, k, 0, j, t - 1);
      EntryNext(x, w, 1, n, k, 0, j, t - 1);
      EntryNext(x, Plus(v, w), 1, n, k, 0, j, t - 1);
    }
  }

  lemma {:induction false} EntryScales(a: real, x: Vec, w: Vec, n: nat, k: nat, j: nat, t: nat)
    requires |x| == 1 * k && |w| == k * n && j < n && t <= k
    ensures Entry(x, Scaled(a, w), 1, n, k, 0, j, t) == a * Entry(x, w, 1, n, k, 0, j, t)
  {
    if t > 0 {
      EntryScales(a, x, w, n, k, j, t - 1);
      EntryNext(x, w, 1, n, k, 0, j, t - 1);
      EntryNext(x, Scaled(a, w), 1, n, k, 0, j, t - 1);
      hide Entry;
      Spread(a, Entry(x, w, 1, n, k, 0, j, t - 1), x[At(0, k, t - 1)], w[At(t - 1, n, j)]);
    }
  }

  lemma {:induction false} EntryOfScaled(a: real, x: Vec, w: Vec, n: nat, k: nat, j: nat, t: nat)
    requires |x| == 1 * k && |w| == k * n && j < n && t <= k
    ensures Entry(Scaled(a, x), w, 1, n, k, 0, j, t) == a * Entry(x, w, 1, n, k, 0, j, t)
  {
    if t > 0 {
      EntryOfScaled(a, x, w, n, k, j, t - 1);
      EntryNext(x, w, 1, n, k, 0, j, t - 1);
      EntryNext(Scaled(a, x), w, 1, n, k, 0, j, t - 1);
      hide Entry;
      Spread(a, Entry(x, w, 1, n, k, 0, j, t - 1), x[At(0, k, t - 1)], w[At(t - 1, n, j)]);
    }
  }

  lemma Spread(a: real, e: real, x: real, w: real)
    ensures a * e + x * (a * w) == a * (e + x * w) == a * e + (a * x) * w
  {
  }

  lemma {:induction false} EntryOfSum(x: Vec, y: Vec, w: Vec, n: nat, k: nat, j: nat, t: nat)
    requires |x| == |y| == 1 * k && |w| == k * n && j < n && t <= k
    ensures Entry(Plus(x, y), w, 1, n, k, 0, j, t) == Entry(x, w, 1, n, k, 0, j, t) + Entry(y, w, 1, n, k, 0, j, t)
  {
    if t > 0 {
      EntryOfSum(x, y, w, n, k, j, t - 1);
      EntryNext(x, w, 1, n, k, 0, j, t - 1);
      EntryNext(y, w, 1, n, k, 0, j, t - 1);
      EntryNext(Plus(x, y), w, 1, n, k, 0, j, t - 1);
    }
  }

  /** A projection is linear in its weights and in its input. */
  lemma ProjectAdds(net: CpuNet, x: Vec, v: Vec, w: Vec, n: nat, k: nat)
    requires |x| == k && |v| == |w| == k * n
    ensures net.Project(x, Plus(v, w), n, k) == Plus(net.Project(x, v, n, k), net.Project(x, w, n, k))
  {
    forall j | 0 <= j < n
      ensures net.Project(x, Plus(v, w), n, k)[j] == net.Project(x, v, n, k)[j] + net.Project(x, w, n, k)[j]
    {
      ProjectAt(net, x, v, n, k, j);
      ProjectAt(net, x, w, n, k, j);
      ProjectAt(net, x, Plus(v, w), n, k, j);
      EntryAdds(x, v, w, n, k, j, k);
    }
  }

  lemma ProjectScalesAt(net: CpuNet, a: real, x: Vec, w: Vec, n: nat, k: nat, j: nat)
    requires |x| == k && |w| == k * n && j < n
    ensures net.Project(x, Scaled(a, w), n, k)[j] == a * net.Project(x, w, n, k)[j]
    ensures net.Project(Scaled(a, x), w, n, k)[j] == a * net.Project(x, w, n, k)[j]
  {
    hide CpuNet.Project, Entry;
    ProjectAt(net, x, w, n, k, j);
    ProjectAt(net, x, Scaled(a, w), n, k, j);
    ProjectAt(net, Scaled(a, x), w, n, k, j);
    EntryScales(a, x, w, n, k, j, k);
    EntryOfScaled(a, x, w, n, k, j, k);
  }

  lemma ProjectScales(net: CpuNet, a: real, x: Vec, w: Vec, n: nat, k: nat)
    requires |x| == k && |w| == k * n
    ensures net.Project(x, Scaled(a, w), n, k) == Scaled(a, net.Project(x, w, n, k))
    ensures net.Project(Scaled(a, x), w, n, k) == Scaled(a, net.Project(x, w, n, k))
  {
    hide CpuNet.Project;
    var r := Scaled(a, net.Project(x, w, n, k));
    forall j | 0 <= j < n
      ensures net.Project(x, Scaled(a, w), n, k)[j] == r[j]
      ensures net.Project(Scaled(a, x), w, n, k)[j] == r[j]
    {
      ProjectScalesAt(net, a, x, w, n, k, j);
    }
  }

  lemma ProjectOfSum(net: CpuNet, x: Vec, y: Vec, w: Vec, n: nat, k: nat)
    requires |x| == |y| == k && |w| == k * n
    ensures net.Project(Plus(x, y), w, n, k) == Plus(net.Project(x, w, n, k), net.Project(y, w, n, k))
  {
    forall j | 0 <= j < n
      ensures net.Project(Plus(x, y), w, n, k)[j] == net.Project(x, w, n, k)[j] + net.Project(y, w, n, k)[j]
    {
      ProjectAt(net, x, w, n, k, j);
      ProjectAt(net, y, w, n, k, j);
      ProjectAt(net, Plus(x, y), w, n, k, j);
      EntryOfSum(x, y, w, n, k, j, k);
    }
  }

  lemma ProjectZero(net: CpuNet, x: Vec, w: Vec, n: nat, k: nat)
    requires |x| == k && |w| == k * n && (w == Zeros(k * n) || x == Zeros(k))
    ensures net.Project(x, w, n, k) == Zeros(n)
  {
    ProjectScales(net, 0.0, x, w, n, k);
    assert w == Zeros(k * n) ==> Scaled(0.0, w) == w;
    assert x == Zeros(k) ==> Scaled(0.0, x) == x;
    assert Scaled(0.0, net.Project(x, w, n, k)) == Zeros(n);
  }

  // ---- the gated feed-forward ----------------------------------------------------------------------------

  /** The feed-forward is linear in the `up` weights, whatever the sigmoid. */
  lemma FfnUpAdds(net: CpuNet, l: Layer, u: Vec, v: Vec, x: Vec)
    requires net.Ok() && net.LayerOk(l) && |x| == net.hidden && |u| == |v| == |l.up|
    ensures net.Ffn(l.(up := Plus(u, v)), x) == Plus(net.Ffn(l.(up := u), x), net.Ffn(l.(up := v), x))
  {
    var g := net.Project(x, l.gate, net.ffn, net.hidden);
    var pu, pv := net.Project(x, u, net.ffn, net.hidden), net.Project(x, v, net.ffn, net.hidden);
    ProjectAdds(net, x, u, v, net.ffn, net.hidden);
    hide CpuNet.Project, CpuNet.Gated;
    GatedAdds(net, g, pu, pv);
    ProjectOfSum(net, net.Gated(g, pu), net.Gated(g, pv), l.down, net.hidden, net.ffn);
  }

  lemma FfnUpScales(net: CpuNet, l: Layer, a: real, x: Vec)
    requires net.Ok() && net.LayerOk(l) && |x| == net.hidden
    ensures net.Ffn(l.(up := Scaled(a, l.up)), x) == Scaled(a, net.Ffn(l, x))
  {
    var g := net.Project(x, l.gate, net.ffn, net.hidden);
    var u := net.Project(x, l.up, net.ffn, net.hidden);
    ProjectScales(net, a, x, l.up, net.ffn, net.hidden);
    hide CpuNet.Project;
    GatedScales(net, a, g, u);
    ProjectScales(net, a, net.Gated(g, u), l.down, net.hidden, net.ffn);
  }

  lemma GatedAdds(net: CpuNet, g: Vec, u: Vec, v: Vec)
    requires |g| == |u| == |v|
    ensures net.Gated(g, Plus(u, v)) == Plus(net.Gated(g, u), net.Gated(g, v))
  {
    var r := Plus(net.Gated(g, u), net.Gated(g, v));
    forall i | 0 <= i < |g|
      ensures net.Gated(g, Plus(u, v))[i] == r[i]
    {
      Distribute(g[i] * net.math.sigmoid(g[i]), u[i], v[i]);
    }
  }

  lemma Distribute(a: real, u: real, v: real)
    ensures a * (u + v) == a * u + a * v
  {
  }

  lemma GatedScales(net: CpuNet, a: real, g: Vec, u: Vec)
    requires |g| == |u|
    ensures net.Gated(g, Scaled(a, u)) == Scaled(a, net.Gated(g, u))
  {
    var r := Scaled(a, net.Gated(g, u));
    forall i | 0 <= i < |g|
      ensures net.Gated(g, Scaled(a, u))[i] == r[i]
    {
      Swap(g[i] * net.math.sigmoid(g[i]), a, u[i]);
    }
  }

  lemma Swap(s: real, a: real, u: real)
    ensures s * (a * u) == a * (s * u)
  {
  }

  /** A gate of zeros closes it, whatever `up` says and whatever the sigmoid of zero is. */
  lemma FfnZeroGate(net: CpuNet, l: Layer, x: Vec)
    requires net.Ok() && net.LayerOk(l) && |x| == net.hidden && l.gate == Zeros(net.hidden * net.ffn)
    ensures net.Ffn(l, x) == Zeros(net.hidden)
  {
    ProjectZero(net, x, l.gate, net.ffn, net.hidden);
    var g, u := net.Project(x, l.gate, net.ffn, net.hidden), net.Project(x, l.up, net.ffn, net.hidden);
    hide CpuNet.Project;
    assert net.Gated(g, u) == Zeros(net.ffn);
    ProjectZero(net, net.Gated(g, u), l.down, net.hidden, net.ffn);
  }

  /** Where the sigmoid of a value and of its negative add up to one, turning the gate weights
      around leaves a difference without any sigmoid: the product of both projections. */
  lemma FfnOddGate(net: CpuNet, l: Layer, x: Vec)
    requires net.Ok() && net.LayerOk(l) && |x| == net.hidden
    requires forall z: real :: net.math.sigmoid(z) + net.math.sigmoid(-1.0 * z) == 1.0
    ensures var g, u := net.Project(x, l.gate, net.ffn, net.hidden), net.Project(x, l.up, net.ffn, net.hidden);
            net.Ffn(l, x) == Plus(net.Ffn(l.(gate := Scaled(-1.0, l.gate)), x),
                                  net.Project(Times(g, u), l.down, net.hidden, net.ffn))
  {
    var g, u := net.Project(x, l.gate, net.ffn, net.hidden), net.Project(x, l.up, net.ffn, net.hidden);
    ProjectScales(net, -1.0, x, l.gate, net.ffn, net.hidden);
    hide CpuNet.Project;
    var h := Scaled(-1.0, g);
    forall i | 0 <= i < |g|
      ensures net.Gated(g, u)[i] == net.Gated(h, u)[i] + Times(g, u)[i]
    {
      GateOdd(g[i], net.math.sigmoid(g[i]), net.math.sigmoid(-1.0 * g[i]), u[i]);
    }
    assert net.Gated(g, u) == Plus(net.Gated(h, u), Times(g, u));
    ProjectOfSum(net, net.Gated(h, u), Times(g, u), l.down, net.hidden, net.ffn);
  }

  function Times(x: Vec, y: Vec): (r: Vec)
    requires |x| == |y|
    ensures |r| == |x|
  {
    seq(|x|, i requires 0 <= i < |x| => x[i] * y[i])
  }

  lemma GateOdd(g: real, s: real, m: real, u: real)
    requires s + m == 1.0
    ensures g * s * u == (-1.0 * g) * m * u + g * u
  {
    assert m == 1.0 - s;
  }

  // ---- softmax and attention -------------------------------------------------------------------------------

  lemma {:induction false} SumScales(a: real, x: Vec, n: nat)
    requires n <= |x|
    ensures Sum(Scaled(a, x), n) == a * Sum(x, n)
  {
    if n > 0 {
      SumScales(a, x, n - 1);
      Distribute(a, Sum(x, n - 1), x[n - 1]);
    }
  }

  lemma WeightsAre(math: Math, s: Vec) returns (inv: real)
    requires |s| > 0 && Sum(Exps(math, s), |s|) > 0.0
    ensures inv * Sum(Exps(math, s), |s|) == 1.0 && Weights(math, s) == Scaled(inv, Exps(math, s))
  {
    hide Exps, Sum;
    var e := Exps(math, s);
    inv := 1.0 / Sum(e, |s|);
    Quotient(1.0, Sum(e, |s|));
    var r := Scaled(inv, e);
    forall i | 0 <= i < |s|
      ensures Weights(math, s)[i] == r[i]
    {
      Quotient(e[i], Sum(e, |s|));
    }
  }

  lemma Quotient(a: real, b: real)
    requires b > 0.0
    ensures a / b == (1.0 / b) * a && (1.0 / b) * b == 1.0
  {
  }

  /** The weights of a window whose exponentials have a positive sum add up to one. */
  lemma WeightsSumToOne(math: Math, s: Vec)
    requires |s| > 0 && Sum(Exps(math, s), |s|) > 0.0
    ensures Sum(Weights(math, s), |s|) == 1.0
  {
    hide Weights, Exps;
    var inv := WeightsAre(math, s);
    SumScales(inv, Exps(math, s), |s|);
  }

  lemma WeightsProportional(math: Math, s: Vec) returns (inv: real)
    requires |s| > 0 && Sum(Exps(math, s), |s|) > 0.0
    ensures Weights(math, s) == Scaled(inv, Exps(math, s))
  {
    inv := WeightsAre(math, s);
  }

  lemma ExpsAt(math: Math, s: Vec, t: nat)
    requires t < |s|
    ensures Exps(math, s)[t] == math.exp(s[t] - Maximum(s, |s|))
  {
  }

  /** They stand to each other as the exponentials of the scores, taken from the largest one. */
  lemma WeightsRatio(math: Math, s: Vec, t: nat, u: nat)
    requires t < |s| && u < |s| && Sum(Exps(math, s), |s|) > 0.0
    ensures Weights(math, s)[t] * math.exp(s[u] - Maximum(s, |s|)) == Weights(math, s)[u] * math.exp(s[t] - Maximum(s, |s|))
  {
    hide Weights, Sum, Scaled, Exps, Maximum;
    var inv := WeightsProportional(math, s);
    ScaledAt(inv, Exps(math, s), t);
    ScaledAt(inv, Exps(math, s), u);
    ExpsAt(math, s, t);
    ExpsAt(math, s, u);
    Cross(inv, math.exp(s[t] - Maximum(s, |s|)), math.exp(s[u] - Maximum(s, |s|)), Weights(math, s)[t], Weights(math, s)[u]);
  }

  lemma ScaledAt(a: real, x: Vec, i: nat)
    requires i < |x|
    ensures Scaled(a, x)[i] == a * x[i]
  {
  }

  lemma Cross(a: real, t: real, u: real, v: real, w: real)
    requires v == a * t && w == a * u
    ensures v * u == w * t
  {
    assert (a * t) * u == (a * u) * t;
  }

  /** `Maximum` is one of the scores, and none is larger. */
  lemma {:induction false} MaximumIs(s: Vec, n: nat)
    requires 0 < n <= |s|
    ensures forall i :: 0 <= i < n ==> s[i] <= Maximum(s, n)
    ensures exists i :: 0 <= i < n && s[i] == Maximum(s, n)
  {
    if n == 1 {
      assert s[0] == Maximum(s, n);
    } else {
      MaximumIs(s, n - 1);
      var i :| 0 <= i < n - 1 && s[i] == Maximum(s, n - 1);
      assert Maximum(s, n) == s[if s[i] >= s[n - 1] then i else n - 1];
    }
  }

  /** Adding the same to every score changes nothing. */
  lemma WeightsShift(math: Math, s: Vec, a: real)
    ensures Weights(math, seq(|s|, i requires 0 <= i < |s| => s[i] + a)) == Weights(math, s)
  {
    var r := seq(|s|, i requires 0 <= i < |s| => s[i] + a);
    if |s| > 0 {
      MaximumIs(s, |s|);
      MaximumIs(r, |s|);
      assert Maximum(r, |s|) == Maximum(s, |s|) + a by {
        var i :| 0 <= i < |s| && s[i] == Maximum(s, |s|);
        var j :| 0 <= j < |s| && r[j] == Maximum(r, |s|);
        assert r[i] == s[i] + a && r[j] == s[j] + a;
      }
      assert Exps(math, r) == Exps(math, s) by {
        forall i | 0 <= i < |s|
          ensures Exps(math, r)[i] == Exps(math, s)[i]
        {
          assert r[i] - Maximum(r, |s|) == s[i] - Maximum(s, |s|);
        }
      }
    }
  }

  /** If that sum is not positive the exponentials are used as they are. */
  lemma WeightsBare(math: Math, s: Vec, t: nat)
    requires t < |s| && Sum(Exps(math, s), |s|) <= 0.0
    ensures |Weights(math, s)| == |s| && Weights(math, s)[t] == math.exp(s[t] - Maximum(s, |s|))
  {
  }

  lemma {:induction false} DotIsSquares(x: Vec, n: nat)
    requires n <= |x|
    ensures Dot(x, x, n) == SumSquares(x, n)
  {
    if n > 0 {
      DotIsSquares(x, n - 1);
    }
  }

  lemma {:induction false} DotOfSum(a: Vec, b: Vec, w: Vec, n: nat)
    requires n <= |a| == |b| && n <= |w|
    ensures Dot(Plus(a, b), w, n) == Dot(a, w, n) + Dot(b, w, n)
  {
    if n > 0 {
      DotOfSum(a, b, w, n - 1);
      Distribute(w[n - 1], a[n - 1], b[n - 1]);
    }
  }

  /** The score of a query against itself is its squared length, and scores add up over queries:
      they are not scaled. */
  lemma ScoresAre(a: Vec, b: Vec, ks: seq<Vec>, t: nat)
    requires |a| == |b| && Wide(ks, |a|) && t < |ks|
    ensures ks[t] == a ==> Scores(a, ks)[t] == SumSquares(a, |a|)
    ensures Scores(Plus(a, b), ks)[t] == Scores(a, ks)[t] + Scores(b, ks)[t]
  {
    DotIsSquares(a, |a|);
    DotOfSum(a, b, ks[t], |a|);
  }

  function RowsPlus(a: seq<Vec>, b: seq<Vec>, d: nat): (r: seq<Vec>)
    requires |a| == |b| && Wide(a, d) && Wide(b, d)
    ensures |r| == |a| && Wide(r, d)
  {
    seq(|a|, t requires 0 <= t < |a| => Plus(a[t], b[t]))
  }

  lemma {:induction false} MixedAdds(p: Vec, a: seq<Vec>, b: seq<Vec>, d: nat, i: nat, n: nat)
    requires |a| == |b| && Wide(a, d) && Wide(b, d) && i < d && n <= |a| && n <= |p|
    ensures Mixed(p, RowsPlus(a, b, d), d, i, n) == Mixed(p, a, d, i, n) + Mixed(p, b, d, i, n)
  {
    if n > 0 {
      MixedAdds(p, a, b, d, i, n - 1);
      assert p[n - 1] * (a[n - 1][i] + b[n - 1][i]) == p[n - 1] * a[n - 1][i] + p[n - 1] * b[n - 1][i];
    }
  }

  /** Attention is additive in the values. */
  lemma AttendAdds(math: Math, q: Vec, ks: seq<Vec>, a: seq<Vec>, b: seq<Vec>)
    requires Wide(ks, |q|) && Wide(a, |q|) && Wide(b, |q|) && |ks| == |a| == |b|
    ensures Attend(math, q, ks, RowsPlus(a, b, |q|)) == Plus(Attend(math, q, ks, a), Attend(math, q, ks, b))
  {
    var p := Weights(math, Scores(q, ks));
    forall i | 0 <= i < |q|
      ensures Attend(math, q, ks, RowsPlus(a, b, |q|))[i] == Attend(math, q, ks, a)[i] + Attend(math, q, ks, b)[i]
    {
      MixedAdds(p, a, b, |q|, i, |ks|);
    }
  }

  lemma {:induction false} MixedOne(p: Vec, vs: seq<Vec>, d: nat, i: nat, n: nat, t: nat)
    requires Wide(vs, d) && i < d && n <= |vs| && n <= |p| && t < |vs|
    requires forall u :: 0 <= u < |vs| && u != t ==> vs[u] == Zeros(d)
    ensures Mixed(p, vs, d, i, n) == if t < n then p[t] * vs[t][i] else 0.0
  {
    if n > 0 {
      MixedOne(p, vs, d, i, n - 1, t);
    }
  }

  /** When all values but one are zero, attention is that value times the weight of its own
      position. */
  lemma AttendPicks(math: Math, q: Vec, ks: seq<Vec>, vs: seq<Vec>, t: nat)
    requires Wide(ks, |q|) && Wide(vs, |q|) && |ks| == |vs| && t < |vs|
    requires forall u :: 0 <= u < |vs| && u != t ==> vs[u] == Zeros(|q|)
    ensures Attend(math, q, ks, vs) == Scaled(Weights(math, Scores(q, ks))[t], vs[t])
  {
    var p := Weights(math, Scores(q, ks));
    var r := Scaled(p[t], vs[t]);
    hide Weights, Scores;
    forall i | 0 <= i < |q|
      ensures Attend(math, q, ks, vs)[i] == r[i]
    {
      MixedOne(p, vs, |q|, i, |vs|, t);
    }
  }

  lemma {:induction false} MixedSame(p: Vec, vs: seq<Vec>, d: nat, i: nat, n: nat, v: Vec)
    requires Wide(vs, d) && i < d == |v| && n <= |vs| && n <= |p| && forall t :: 0 <= t < |vs| ==> vs[t] == v
    ensures Mixed(p, vs, d, i, n) == Sum(p, n) * v[i]
  {
    if n > 0 {
      MixedSame(p, vs, d, i, n - 1, v);
    }
  }

  /** Attending to copies of one value gives that value: attention is an average. */
  lemma AttendAverages(math: Math, q: Vec, ks: seq<Vec>, vs: seq<Vec>, v: Vec)
    requires Wide(ks, |q|) && Wide(vs, |q|) && |ks| == |vs| > 0 && |v| == |q| && forall t :: 0 <= t < |vs| ==> vs[t] == v
    requires Sum(Exps(math, Scores(q, ks)), |ks|) > 0.0
    ensures Attend(math, q, ks, vs) == v
  {
    var p := Weights(math, Scores(q, ks));
    WeightsSumToOne(math, Scores(q, ks));
    hide Weights, Scores, Exps;
    forall i | 0 <= i < |q|
      ensures Attend(math, q, ks, vs)[i] == v[i]
    {
      MixedSame(p, vs, |q|, i, |vs|, v);
    }
  }

  // ---- norm ------------------------------------------------------------------------------------------------

  /** The norm is linear in its weights. */
  lemma RmsNormAdds(net: CpuNet, x: Vec, v: Vec, w: Vec)
    requires |x| == |v| == |w| > 0
    ensures net.RmsNorm(x, Plus(v, w)) == Plus(net.RmsNorm(x, v), net.RmsNorm(x, w))
  {
    var rstd := net.math.rsqrt(SumSquares(x, |x|) / |x| as real + net.eps);
    forall i | 0 <= i < |x|
      ensures net.RmsNorm(x, Plus(v, w))[i] == net.RmsNorm(x, v)[i] + net.RmsNorm(x, w)[i]
    {
      var y := x[i] * rstd;
      assert y * (v[i] + w[i]) == y * v[i] + y * w[i];
    }
  }

  lemma {:induction false} SquaresScale(a: real, x: Vec, n: nat)
    requires n <= |x|
    ensures SumSquares(Scaled(a, x), n) == SumSquares(x, n) * (a * a)
  {
    if n > 0 {
      SquaresScale(a, x, n - 1);
      SquareOf(a, SumSquares(x, n - 1), x[n - 1]);
    }
  }

  lemma SquareOf(a: real, s: real, x: real)
    ensures s * (a * a) + (a * x) * (a * x) == (s + x * x) * (a * a)
  {
  }

  function MeanSquare(net: CpuNet, x: Vec): real
    requires |x| > 0
  {
    SumSquares(x, |x|) / |x| as real + net.eps
  }

  /** With weights of one and a reciprocal root that is one, the squares of the normalised vector
      add up to the share of the squares in their mean and epsilon together. */
  lemma RmsNormSquares(net: CpuNet, x: Vec, ones: Vec)
    requires |x| == |ones| > 0 && forall i :: 0 <= i < |ones| ==> ones[i] == 1.0
    requires var m := MeanSquare(net, x); net.math.rsqrt(m) * net.math.rsqrt(m) * m == 1.0
    ensures SumSquares(net.RmsNorm(x, ones), |x|) * MeanSquare(net, x) == SumSquares(x, |x|)
  {
    hide CpuNet.RmsNorm, SumSquares, Scaled, MeanSquare;
    var r := net.math.rsqrt(MeanSquare(net, x));
    RmsNormScales(net, x, ones, r);
    SquaresScale(r, x, |x|);
    Regroup(SumSquares(x, |x|), r, MeanSquare(net, x), SumSquares(net.RmsNorm(x, ones), |x|));
  }

  lemma RmsNormScales(net: CpuNet, x: Vec, ones: Vec, r: real)
    requires |x| == |ones| > 0 && forall i :: 0 <= i < |ones| ==> ones[i] == 1.0
    requires r == net.math.rsqrt(MeanSquare(net, x))
    ensures net.RmsNorm(x, ones) == Scaled(r, x)
  {
    hide SumSquares;
    var y := Scaled(r, x);
    forall i | 0 <= i < |x|
      ensures net.RmsNorm(x, ones)[i] == y[i]
    {
      TimesOne(x[i], r);
    }
  }

  lemma TimesOne(x: real, r: real)
    ensures x * r * 1.0 == r * x
  {
  }

  lemma Regroup(s: real, r: real, m: real, t: real)
    requires r * r * m == 1.0 && t == s * (r * r)
    ensures t * m == s
  {
    assert (s * (r * r)) * m == s * (r * r * m);
  }
}
