/** The declaration of a step as the CUDA graph sees it: kernel nodes with stable argument cells,
    the cells every step rewrites, and the launch driven by them. */
module GraphCells {
  import opened Launches

  /** A declared argument: a constant, or a place for a value of the step. */
  datatype Arg = Is(w: Word) | Token | Pos | Phys(li: nat) | Off

  /** What the declaration means by a node. */
  datatype Node = Node(kernel: Kernel, grid: nat, block: nat, shared: nat, args: seq<Arg>)

  /** The step's variables, and the pages of a layer. */
  datatype Step = Step(token: nat, pos: nat, pp: nat)

  function Value(a: Arg, v: Step): Word {
    match a
    case Is(w) => w
    case Token => v.token
    case Pos => v.pos
    case Phys(li) => li * v.pp + v.pos / BLOCK_LEN
    case Off => v.pos % BLOCK_LEN
  }

  /** The launch a node stands for in a step. */
  function Filled(n: Node, v: Step): (r: Launch)
    ensures |r.args| == |n.args|
  {
    Launch(n.kernel, n.grid, n.block, n.shared, seq(|n.args|, i requires 0 <= i < |n.args| => Value(n.args[i], v)))
  }

  function AllFilled(p: seq<Node>, v: Step): (r: seq<Launch>)
    ensures |r| == |p| && forall i :: 0 <= i < |p| ==> r[i] == Filled(p[i], v)
  {
    seq(|p|, i requires 0 <= i < |p| => Filled(p[i], v))
  }

  lemma FilledJoin(p: seq<Node>, q: seq<Node>, v: Step)
    ensures AllFilled(p + q, v) == AllFilled(p, v) + AllFilled(q, v)
  {
  }

  /** A launch whose arguments never change. */
  function Still(l: Launch): (r: Node)
    ensures |r.args| == |l.args|
  {
    Node(l.kernel, l.grid, l.block, l.shared, Consts(l.args))
  }

  function Consts(ws: seq<Word>): (r: seq<Arg>)
    ensures |r| == |ws| && forall i :: 0 <= i < |ws| ==> r[i] == Is(ws[i])
  {
    seq(|ws|, i requires 0 <= i < |ws| => Is(ws[i]))
  }

  function Stills(ls: seq<Launch>): (r: seq<Node>)
    ensures |r| == |ls| && forall i :: 0 <= i < |ls| ==> r[i] == Still(ls[i])
  {
    seq(|ls|, i requires 0 <= i < |ls| => Still(ls[i]))
  }

  lemma StillsJoin(a: seq<Launch>, b: seq<Launch>)
    ensures Stills(a + b) == Stills(a) + Stills(b)
  {
  }

  lemma StillFilled(l: Launch, v: Step)
    ensures Filled(Still(l), v) == l
  {
    assert Filled(Still(l), v).args == l.args;
  }

  lemma StillsFilled(ls: seq<Launch>, v: Step)
    ensures AllFilled(Stills(ls), v) == ls
  {
    forall i | 0 <= i < |ls|
      ensures Filled(Stills(ls)[i], v) == ls[i]
    {
      StillFilled(ls[i], v);
    }
  }

  /** The same node with a place in one slot. */
  function Put(n: Node, slot: nat, a: Arg): (r: Node)
    requires slot < |n.args|
    ensures |r.args| == |n.args|
  {
    n.(args := n.args[slot := a])
  }

  // ---- specifications and cells -----------------------------------------------------------------------

  datatype Spec = Spec(kernel: Kernel, slots: nat, grid: nat, block: nat, shared: nat)

  function SpecOf(n: Node): Spec {
    Spec(n.kernel, |n.args|, n.grid, n.block, n.shared)
  }

  ghost predicate Specified(p: seq<Node>, specs: seq<Spec>) {
    |specs| == |p| && forall i :: 0 <= i < |p| ==> specs[i] == SpecOf(p[i])
  }

  /** The literals a node is pushed with: its constants, and 0 in its places. */
  ghost predicate Literals(vals: seq<Word>, args: seq<Arg>) {
    && |vals| == |args|
    && forall i :: 0 <= i < |args| ==> vals[i] == if args[i].Is? then args[i].w else 0
  }

  /** Node `i`'s arguments are the `|args|` cells from `off[i]` on. */
  ghost predicate Laid(p: seq<Node>, off: seq<nat>, flat: seq<Arg>) {
    && |off| == |p|
    && forall i :: 0 <= i < |p| ==> off[i] + |p[i].args| <= |flat| && flat[off[i]..off[i] + |p[i].args|] == p[i].args
  }

  lemma LaidGrows(p: seq<Node>, off: seq<nat>, flat: seq<Arg>, n: Node)
    requires Laid(p, off, flat)
    ensures Laid(p + [n], off + [|flat|], flat + n.args)
  {
    var p', off', flat' := p + [n], off + [|flat|], flat + n.args;
    forall i | 0 <= i < |p'|
      ensures off'[i] + |p'[i].args| <= |flat'| && flat'[off'[i]..off'[i] + |p'[i].args|] == p'[i].args
    {
      if i < |p| {
        assert flat'[off[i]..off[i] + |p[i].args|] == flat[off[i]..off[i] + |p[i].args|];
      }
    }
  }

  /** A launch from a specification and the cells. */
  function FromCells(s: Spec, off: nat, cells: seq<Word>): Launch
    requires off + s.slots <= |cells|
  {
    Launch(s.kernel, s.grid, s.block, s.shared, cells[off..off + s.slots])
  }

  lemma NodeFits(p: seq<Node>, specs: seq<Spec>, off: seq<nat>, flat: seq<Arg>, i: nat)
    requires Laid(p, off, flat) && Specified(p, specs) && i < |p|
    ensures off[i] + specs[i].slots <= |flat|
  {
  }

  /** The cells say what the step's values are. */
  ghost predicate CellsHold(flat: seq<Arg>, cells: seq<Word>, v: Step) {
    |cells| == |flat| && forall c :: 0 <= c < |flat| ==> cells[c] == Value(flat[c], v)
  }

  lemma NodeIs(p: seq<Node>, specs: seq<Spec>, off: seq<nat>, flat: seq<Arg>, cells: seq<Word>, v: Step, i: nat)
    requires Laid(p, off, flat) && Specified(p, specs) && i < |p| && CellsHold(flat, cells, v)
    ensures off[i] + specs[i].slots <= |cells| && FromCells(specs[i], off[i], cells) == Filled(p[i], v)
  {
    forall k | 0 <= k < |p[i].args|
      ensures flat[off[i] + k] == p[i].args[k]
    {
      assert flat[off[i]..off[i] + |p[i].args|][k] == p[i].args[k];
    }
    assert FromCells(specs[i], off[i], cells).args == Filled(p[i], v).args;
  }

  // ---- places, marks and the refresh list ---------------------------------------------------------------

  /** The cells of (node, slot) pairs. */
  ghost predicate Names(off: seq<nat>, refresh: seq<(nat, nat)>, named: seq<nat>) {
    && |named| == |refresh|
    && forall k :: 0 <= k < |refresh| ==> refresh[k].0 < |off| && off[refresh[k].0] + refresh[k].1 == named[k]
  }

  lemma NamesMore(off: seq<nat>, refresh: seq<(nat, nat)>, named: seq<nat>, base: nat, slot: nat)
    requires Names(off, refresh, named)
    ensures Names(off + [base], refresh + [(|off|, slot)], named + [base + slot])
  {
  }

  lemma NamesAgain(off: seq<nat>, refresh: seq<(nat, nat)>, named: seq<nat>, slot: nat)
    requires Names(off, refresh, named) && |off| > 0
    ensures Names(off, refresh + [(|off| - 1, slot)], named + [off[|off| - 1] + slot])
  {
  }

  /** Exactly the places. */
  ghost predicate PlacesAre(flat: seq<Arg>, named: seq<nat>) {
    && (forall c :: c in named ==> c < |flat| && !flat[c].Is?)
    && (forall c :: 0 <= c < |flat| && !flat[c].Is? ==> c in named)
  }

  lemma PlacesStay(flat: seq<Arg>, named: seq<nat>, args: seq<Arg>)
    requires PlacesAre(flat, named) && forall k :: 0 <= k < |args| ==> args[k].Is?
    ensures PlacesAre(flat + args, named)
  {
  }

  lemma PlacesOne(flat: seq<Arg>, named: seq<nat>, args: seq<Arg>, slot: nat)
    requires PlacesAre(flat, named) && slot < |args|
    requires forall k :: 0 <= k < |args| ==> (args[k].Is? <==> k != slot)
    ensures PlacesAre(flat + args, named + [|flat| + slot])
  {
  }

  lemma PlacesTwo(flat: seq<Arg>, named: seq<nat>, args: seq<Arg>, a: nat, b: nat)
    requires PlacesAre(flat, named) && a < |args| && b < |args|
    requires forall k :: 0 <= k < |args| ==> (args[k].Is? <==> k != a && k != b)
    ensures PlacesAre(flat + args, named + [|flat| + a] + [|flat| + b])
  {
  }

  ghost predicate AllAre(flat: seq<Arg>, cells: seq<nat>, a: Arg) {
    forall l :: 0 <= l < |cells| ==> cells[l] < |flat| && flat[cells[l]] == a
  }

  ghost predicate PagesAre(flat: seq<Arg>, cells: seq<nat>) {
    forall l :: 0 <= l < |cells| ==> cells[l] < |flat| && flat[cells[l]] == Phys(l)
  }

  /** The marks survive a node. */
  lemma MarksStay(flat: seq<Arg>, args: seq<Arg>, q: seq<nat>, k: seq<nat>, pages: seq<nat>, slots: seq<nat>)
    requires AllAre(flat, q, Pos) && AllAre(flat, k, Pos) && PagesAre(flat, pages) && AllAre(flat, slots, Off)
    ensures AllAre(flat + args, q, Pos) && AllAre(flat + args, k, Pos)
    ensures PagesAre(flat + args, pages) && AllAre(flat + args, slots, Off)
  {
  }

  class GraphStepDecl {
    var specs: seq<Spec>
    var cellOff: seq<nat>
    var cells: seq<Word>
    var refresh: seq<(nat, nat)>
    var cellToken: nat
    var ropeQ: seq<nat>
    var ropeK: seq<nat>
    var kvPhys: seq<nat>
    var kvOff: seq<nat>
    ghost var program: seq<Node>
    ghost var flat: seq<Arg>
    ghost var named: seq<nat>

    ghost predicate Valid()
      reads this
    {
      && |cells| == |flat| && Laid(program, cellOff, flat) && Specified(program, specs)
      && (forall c :: 0 <= c < |flat| && flat[c].Is? ==> cells[c] == flat[c].w)
    }

    /** The recorded cells are places for what the step writes there. */
    ghost predicate Marked()
      reads this
    {
      && cellToken < |flat| && flat[cellToken] == Token
      && |ropeQ| == |ropeK| && |kvPhys| == |kvOff|
      && AllAre(flat, ropeQ, Pos) && AllAre(flat, ropeK, Pos) && PagesAre(flat, kvPhys) && AllAre(flat, kvOff, Off)
    }

    ghost predicate Recorded(c: nat)
      reads this
    {
      c == cellToken || c in ropeQ || c in ropeK || c in kvPhys || c in kvOff
    }

    /** The refresh list names exactly the places. */
    ghost predicate Named()
      reads this
    {
      Names(cellOff, refresh, named) && PlacesAre(flat, named)
    }

    /** And all of them are recorded. */
    ghost predicate Complete()
      reads this
    {
      Named() && forall c :: c in named ==> Recorded(c)
    }

    ghost predicate Ready()
      reads this
    {
      Valid() && Marked() && Complete()
    }

    ghost predicate Blank()
      reads this
    {
      && Valid() && program == [] && flat == [] && cellOff == [] && refresh == [] && named == []
      && ropeQ == [] && ropeK == [] && kvPhys == [] && kvOff == []
    }

    constructor ()
      ensures Blank()
    {
      specs, cellOff, cells, refresh := [], [], [], [];
      cellToken := 0;
      ropeQ, ropeK, kvPhys, kvOff := [], [], [], [];
      program, flat, named := [], [], [];
    }

    // ---- pushing nodes --------------------------------------------------------------------------------

    /** One node: its specification and its argument cells. */
    method Custom(kernel: Kernel, slots: nat, grid: nat, block: nat, shared: nat, vals: seq<Word>, ghost args: seq<Arg>)
      requires Valid() && slots == |vals| && Literals(vals, args)
      modifies `specs, `cellOff, `cells, `program, `flat
      ensures Valid() && program == old(program) + [Node(kernel, grid, block, shared, args)]
      ensures flat == old(flat) + args && cells == old(cells) + vals && cellOff == old(cellOff) + [|old(flat)|]
    {
      LaidGrows(program, cellOff, flat, Node(kernel, grid, block, shared, args));
      cellOff := cellOff + [|cells|];
      cells := cells + vals;
      specs := specs + [Spec(kernel, slots, grid, block, shared)];
      program, flat := program + [Node(kernel, grid, block, shared, args)], flat + args;
    }

    /** The absolute cell of the last node's `slot`. */
    function CellOf(slot: nat): nat
      requires |cellOff| > 0
      reads this
    {
      cellOff[|cellOff| - 1] + slot
    }

    /** A node without places. */
    method Plain(kernel: Kernel, slots: nat, grid: nat, block: nat, shared: nat, vals: seq<Word>)
      requires Ready() && slots == |vals|
      modifies `specs, `cellOff, `cells, `program, `flat
      ensures Ready() && program == old(program) + [Still(Launch(kernel, grid, block, shared, vals))]
    {
      ghost var args := Consts(vals);
      PlacesStay(flat, named, args);
      MarksStay(flat, args, ropeQ, ropeK, kvPhys, kvOff);
      Custom(kernel, slots, grid, block, shared, vals, args);
    }

    /** A node with one place, which the refresh list takes in. */
    method PushOne(kernel: Kernel, slots: nat, grid: nat, block: nat, shared: nat, vals: seq<Word>, slot: nat, ghost a: Arg)
      returns (cell: nat)
      requires Valid() && Named() && slots == |vals| && slot < slots && vals[slot] == 0 && !a.Is?
      modifies `specs, `cellOff, `cells, `program, `flat, `refresh, `named
      ensures Valid() && Named()
      ensures program == old(program) + [Put(Still(Launch(kernel, grid, block, shared, vals)), slot, a)]
      ensures flat == old(flat) + Consts(vals)[slot := a]
      ensures cell == |old(flat)| + slot && named == old(named) + [cell]
    {
      hide PlacesAre, Names;
      ghost var args := Consts(vals)[slot := a];
      PlacesOne(flat, named, args, slot);
      NamesMore(cellOff, refresh, named, |flat|, slot);
      Custom(kernel, slots, grid, block, shared, vals, args);
      cell := CellOf(slot);
      refresh, named := refresh + [(|cellOff| - 1, slot)], named + [cell];
    }

    method PushTwo(kernel: Kernel, slots: nat, grid: nat, block: nat, shared: nat, vals: seq<Word>,
                   slotA: nat, ghost a: Arg, slotB: nat, ghost b: Arg) returns (cellA: nat, cellB: nat)
      requires Valid() && Named() && slots == |vals| && slotA < slots && slotB < slots && slotA != slotB
      requires vals[slotA] == vals[slotB] == 0 && !a.Is? && !b.Is?
      modifies `specs, `cellOff, `cells, `program, `flat, `refresh, `named
      ensures Valid() && Named()
      ensures program == old(program) + [Put(Put(Still(Launch(kernel, grid, block, shared, vals)), slotA, a), slotB, b)]
      ensures flat == old(flat) + Consts(vals)[slotA := a][slotB := b]
      ensures cellA == |old(flat)| + slotA && cellB == |old(flat)| + slotB && named == old(named) + [cellA] + [cellB]
    {
      hide PlacesAre, Names;
      ghost var args := Consts(vals)[slotA := a][slotB := b];
      PlacesTwo(flat, named, args, slotA, slotB);
      NamesMore(cellOff, refresh, named, |flat|, slotA);
      NamesAgain(cellOff + [|flat|], refresh + [(|cellOff|, slotA)], named + [|flat| + slotA], slotB);
      Custom(kernel, slots, grid, block, shared, vals, args);
      cellA, cellB := CellOf(slotA), CellOf(slotB);
      refresh := refresh + [(|cellOff| - 1, slotA)] + [(|cellOff| - 1, slotB)];
      named := named + [cellA] + [cellB];
    }

    /** The first node, whose place is the token. */
    method First(kernel: Kernel, slots: nat, grid: nat, block: nat, shared: nat, vals: seq<Word>, slot: nat)
      requires Blank() && slots == |vals| && slot < slots && vals[slot] == 0
      modifies `specs, `cellOff, `cells, `program, `flat, `refresh, `named, `cellToken
      ensures Ready() && program == [Put(Still(Launch(kernel, grid, block, shared, vals)), slot, Token)]
    {
      cellToken := PushOne(kernel, slots, grid, block, shared, vals, slot, Token);
    }

    /** A node whose one place is the position. */
    method PushPos(kernel: Kernel, slots: nat, grid: nat, block: nat, shared: nat, vals: seq<Word>, slot: nat)
      returns (cell: nat)
      requires Valid() && Named() && Marked() && slots == |vals| && slot < slots && vals[slot] == 0
      modifies `specs, `cellOff, `cells, `program, `flat, `refresh, `named
      ensures Valid() && Named() && Marked()
      ensures program == old(program) + [Put(Still(Launch(kernel, grid, block, shared, vals)), slot, Pos)]
      ensures |old(flat)| <= cell < |flat| && flat[cell] == Pos && flat[..|old(flat)|] == old(flat) && named == old(named) + [cell]
    {
      MarksStay(flat, Consts(vals)[slot := Pos], ropeQ, ropeK, kvPhys, kvOff);
      cell := PushOne(kernel, slots, grid, block, shared, vals, slot, Pos);
      assert flat[cell] == Consts(vals)[slot := Pos][slot];
    }

    /** A node whose two places are a layer's page and the slot in it. */
    method PushPage(kernel: Kernel, slots: nat, grid: nat, block: nat, shared: nat, vals: seq<Word>, slotA: nat, slotB: nat)
      requires Ready() && slots == |vals| && slotA < slots && slotB < slots && slotA != slotB && vals[slotA] == vals[slotB] == 0
      modifies `specs, `cellOff, `cells, `program, `flat, `refresh, `named, `kvPhys, `kvOff
      ensures Ready() && |kvPhys| == |old(kvPhys)| + 1
      ensures program == old(program)
                + [Put(Put(Still(Launch(kernel, grid, block, shared, vals)), slotA, Phys(|old(kvPhys)|)), slotB, Off)]
    {
      ghost var args := Consts(vals)[slotA := Phys(|kvPhys|)][slotB := Off];
      MarksStay(flat, args, ropeQ, ropeK, kvPhys, kvOff);
      var page, slot := PushTwo(kernel, slots, grid, block, shared, vals, slotA, Phys(|kvPhys|), slotB, Off);
      assert flat[page] == args[slotA] && flat[slot] == args[slotB];
      RecordPage(page, slot);
    }

    method RecordRopes(q: nat, k: nat)
      requires Valid() && Named() && Marked() && q < |flat| && k < |flat| && flat[q] == flat[k] == Pos
      requires forall c :: c in named ==> Recorded(c) || c == q || c == k
      modifies `ropeQ, `ropeK
      ensures Ready()
    {
      ropeQ, ropeK := ropeQ + [q], ropeK + [k];
    }

    method RecordPage(page: nat, slot: nat)
      requires Valid() && Named() && Marked() && page < |flat| && slot < |flat|
      requires flat[page] == Phys(|kvPhys|) && flat[slot] == Off
      requires forall c :: c in named ==> Recorded(c) || c == page || c == slot
      modifies `kvPhys, `kvOff
      ensures Ready() && kvPhys == old(kvPhys) + [page]
    {
      kvPhys, kvOff := kvPhys + [page], kvOff + [slot];
    }

    // ---- running it -------------------------------------------------------------------------------------

    /** `write_step`: the step's values into the recorded cells. */
    method WriteStep(token: nat, pos: nat, pp: nat)
      requires Valid() && Marked()
      modifies `cells
      ensures Valid() && |cells| == old(|cells|)
      ensures forall c :: 0 <= c < |cells| ==>
                cells[c] == if Recorded(c) then Value(flat[c], Step(token, pos, pp)) else old(cells[c])
    {
      ghost var v, was := Step(token, pos, pp), cells;
      var lp, off := pos / BLOCK_LEN, pos % BLOCK_LEN;
      cells := cells[cellToken := token];
      var li := 0;
      while li < |ropeQ|
        invariant li <= |ropeQ| && |cells| == |flat|
        invariant forall c :: 0 <= c < |cells| ==>
                    cells[c] == if c == cellToken || c in ropeQ[..li] || c in ropeK[..li] then Value(flat[c], v) else was[c]
      {
        cells := cells[ropeQ[li] := pos];
        cells := cells[ropeK[li] := pos];
        li := li + 1;
      }
      assert ropeQ[..li] == ropeQ && ropeK[..li] == ropeK;
      li := 0;
      while li < |kvPhys|
        invariant li <= |kvPhys| && |cells| == |flat|
        invariant forall c :: 0 <= c < |cells| ==>
                    cells[c] == if c == cellToken || c in ropeQ || c in ropeK || c in kvPhys[..li] || c in kvOff[..li]
                                then Value(flat[c], v) else was[c]
      {
        cells := cells[kvPhys[li] := li * pp + lp];
        cells := cells[kvOff[li] := off];
        li := li + 1;
      }
      assert kvPhys[..li] == kvPhys && kvOff[..li] == kvOff;
    }

    /** No library call among the nodes. */
    method IsAllCustom() returns (all: bool)
      requires Valid()
      ensures all <==> forall i :: 0 <= i < |program| ==> program[i].kernel != CublasGemm
    {
      var i := 0;
      while i < |specs|
        invariant i <= |specs| && forall j :: 0 <= j < i ==> program[j].kernel != CublasGemm
      {
        if specs[i].kernel == CublasGemm {
          assert program[i].kernel == CublasGemm;
          return false;
        }
        i := i + 1;
      }
      return true;
    }

    /** The launch driven by the declaration: each node with its slice of the cells. */
    method LaunchDecl() returns (launched: seq<Launch>)
      requires Valid()
      ensures |launched| == |specs| == |cellOff|
      ensures forall i :: 0 <= i < |specs| ==>
                cellOff[i] + specs[i].slots <= |cells| && launched[i] == FromCells(specs[i], cellOff[i], cells)
    {
      launched := [];
      var node := 0;
      while node < |specs|
        invariant node <= |specs| && |launched| == node
        invariant forall i :: 0 <= i < node ==>
                    cellOff[i] + specs[i].slots <= |cells| && launched[i] == FromCells(specs[i], cellOff[i], cells)
      {
        NodeFits(program, specs, cellOff, flat, node);
        launched := launched + [FromCells(specs[node], cellOff[node], cells)];
        node := node + 1;
      }
    }

    /** Cell `c` is an argument the refresh list names. */
    ghost predicate RefreshNames(c: nat)
      reads this
    {
      exists k :: 0 <= k < |refresh| && refresh[k].0 < |cellOff| && cellOff[refresh[k].0] + refresh[k].1 == c
    }

    /** Write the step's variables, then launch: on a complete declaration the launches are the
        declared nodes with the step's values filled in, and no cell outside the refresh list has
        changed. */
    method Run(token: nat, pos: nat, pp: nat) returns (launched: seq<Launch>)
      requires Ready()
      modifies `cells
      ensures Ready() && launched == AllFilled(program, Step(token, pos, pp))
      ensures |cells| == old(|cells|)
      ensures forall c :: 0 <= c < |cells| && cells[c] != old(cells[c]) ==> RefreshNames(c)
    {
      ghost var v, was := Step(token, pos, pp), cells;
      WriteStep(token, pos, pp);
      assert CellsHold(flat, cells, v);
      forall c | 0 <= c < |cells| && cells[c] != was[c]
        ensures RefreshNames(c)
      {
        assert c in named;
        var k :| 0 <= k < |named| && named[k] == c;
        assert cellOff[refresh[k].0] + refresh[k].1 == c;
      }
      launched := LaunchDecl();
      forall i | 0 <= i < |program|
        ensures launched[i] == Filled(program[i], v)
      {
        NodeIs(program, specs, cellOff, flat, cells, v, i);
      }
    }
  }
}
