/** Division by a variable, from the ground up. */
module Arith {
  lemma MulStep(a: nat, b: nat, w: nat)
    requires a < b
    ensures a * w + w <= b * w
  {
    assert b * w == a * w + w + (b - a - 1) * w;
  }

  lemma MulMono(a: nat, b: nat, w: nat)
    requires a <= b
    ensures a * w <= b * w
  {
    if a < b {
      MulStep(a, b, w);
    }
  }

  lemma EuclidUnique(w: nat, q0: nat, r0: nat, q1: nat, r1: nat)
    requires r0 < w && r1 < w && q0 * w + r0 == q1 * w + r1
    ensures q0 == q1 && r0 == r1
  {
    if q0 < q1 {
      MulStep(q0, q1, w);
    } else if q1 < q0 {
      MulStep(q1, q0, w);
    }
  }

  lemma DivMod(x: nat, w: nat)
    requires w > 0
    ensures x == x / w * w + x % w && x % w < w
  {
  }

  lemma DivUnique(x: nat, w: nat, q: nat, r: nat)
    requires w > 0 && x == q * w + r && r < w
    ensures x / w == q && x % w == r
  {
    DivMod(x, w);
    EuclidUnique(w, q, r, x / w, x % w);
  }

  lemma MulDiv(q: nat, w: nat)
    requires w > 0
    ensures q * w / w == q && q * w % w == 0
  {
    DivUnique(q * w, w, q, 0);
  }

  lemma AddDiv(x: nat, w: nat)
    requires w > 0
    ensures (x + w) % w == x % w && (x + w) / w == x / w + 1
  {
    DivMod(x, w);
    assert (x / w + 1) * w == x / w * w + w;
    DivUnique(x + w, w, x / w + 1, x % w);
  }

  lemma DivMono(x: nat, y: nat, w: nat)
    requires w > 0 && x <= y
    ensures x / w <= y / w
  {
    DivMod(x, w);
    DivMod(y, w);
    if y / w < x / w {
      MulStep(y / w, x / w, w);
    }
  }

  /** `x` divides by `w` to below `q` exactly when it is below `q * w`. */
  lemma DivBelow(x: nat, w: nat, q: nat)
    requires w > 0
    ensures x / w < q <==> x < q * w
  {
    DivMod(x, w);
    if x / w < q {
      MulStep(x / w, q, w);
    } else {
      MulMono(q, x / w, w);
    }
  }
}
