/** The causal language model that every other module refers to.

    A decoder layer is kept as two functions: `kv` gives the key/value a position contributes
    to a layer, and `block` maps the residual entering a layer, plus the keys/values of the
    positions seen so far, to the residual leaving it.  Nothing is assumed about either
    function, so a statement proved here holds of every decoder-only network. */
module Transformer {
  type Token = nat
  type Vec = seq<real>

  /** One position's key and value in one layer (all kv heads). */
  datatype KV = KV(k: Vec, v: Vec)

  datatype Model = Model(
    nLayer: nat,
    embed: Token -> Vec,
    kv: (nat, Vec, nat) -> KV,
    block: (nat, Vec, nat, seq<KV>) -> Vec,
    head: Vec -> Vec)

  /** The residual entering layer `li` at position `i`, recomputed from the tokens alone. */
  function Hidden(m: Model, toks: seq<Token>, li: nat, i: nat): Vec
    requires i < |toks|
    decreases li, 0
  {
    if li == 0 then m.embed(toks[i])
    else m.block(li - 1, Hidden(m, toks, li - 1, i), i, Keys(m, toks, li - 1, i + 1))
  }

  /** The keys/values of positions `[0, n)` in layer `li`. */
  function Keys(m: Model, toks: seq<Token>, li: nat, n: nat): (r: seq<KV>)
    requires n <= |toks|
    ensures |r| == n
    decreases li, 1
  {
    seq(n, j requires 0 <= j < n => m.kv(li, Hidden(m, toks, li, j), j))
  }

  /** What the KV cache has to hold for position `j` of layer `li`. */
  function KvAt(m: Model, toks: seq<Token>, li: nat, j: nat): KV
    requires j < |toks|
  {
    m.kv(li, Hidden(m, toks, li, j), j)
  }

  /** The uncached full forward: the next-token logits after `toks`. */
  function Logits(m: Model, toks: seq<Token>): Vec
    requires |toks| > 0
  {
    m.head(Hidden(m, toks, m.nLayer, |toks| - 1))
  }

  /** Causality: a position depends on nothing to its right. */
  lemma {:induction false} HiddenCausal(m: Model, a: seq<Token>, b: seq<Token>, li: nat, i: nat)
    requires i < |a| && i < |b| && a[..i + 1] == b[..i + 1]
    ensures Hidden(m, a, li, i) == Hidden(m, b, li, i)
    decreases li
  {
    assert a[i] == a[..i + 1][i] == b[i];
    if li > 0 {
      HiddenCausal(m, a, b, li - 1, i);
      var l := li - 1;
      forall j | 0 <= j < i + 1
        ensures Hidden(m, a, l, j) == Hidden(m, b, l, j)
      {
        assert a[..j + 1] == a[..i + 1][..j + 1] == b[..j + 1];
        HiddenCausal(m, a, b, l, j);
      }
      assert Keys(m, a, li - 1, i + 1) == Keys(m, b, li - 1, i + 1);
    }
  }

  lemma KvCausal(m: Model, a: seq<Token>, b: seq<Token>, li: nat, j: nat)
    requires j < |a| && j < |b| && a[..j + 1] == b[..j + 1]
    ensures KvAt(m, a, li, j) == KvAt(m, b, li, j)
  {
    HiddenCausal(m, a, b, li, j);
  }
}
