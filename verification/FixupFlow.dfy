/**
 * The last pass over the block list (block.cpp, PhaseCFG::fixup_flow): successors
 * are moved up or reached by inserted gotos, branches are flipped and negated, so
 * that every block falls into the right place.
 */
module FixupFlow {
  import opened Lists
  import opened Wrappers
  import opened ControlFlow

  // ----- The block list -----

  /** The list after taking out position k and putting it back behind position i. */
  function Moved(s: seq<BlockId>, i: nat, k: nat): (m: seq<BlockId>)
    requires i < k < |s|
    ensures |m| == |s| && forall p :: 0 <= p < |s| ==> m[p] == s[MovedFrom(i, k, p)]
  {
    var removed := s[..k] + s[k + 1..];
    removed[..i + 1] + [s[k]] + removed[i + 1..]
  }

  function MovedFrom(i: nat, k: nat, p: nat): nat {
    if p == i + 1 then k else if i + 1 < p <= k then p - 1 else p
  }

  function Inserted(s: seq<BlockId>, i: nat, x: BlockId): (m: seq<BlockId>)
    requires i < |s|
    ensures |m| == |s| + 1 && m[i + 1] == x
    ensures forall p :: 0 <= p <= i ==> m[p] == s[p]
    ensures forall p :: i + 1 < p < |m| ==> m[p] == s[p - 1]
  {
    s[..i + 1] + [x] + s[i + 1..]
  }

  lemma MovedList(s: seq<BlockId>, i: nat, k: nat)
    requires NoDup(s) && i < k < |s|
    ensures NoDup(Moved(s, i, k)) && Elems(Moved(s, i, k)) == Elems(s) && Moved(s, i, k)[..i + 1] == s[..i + 1]
  {
    var m := Moved(s, i, k);
    forall b | b in s ensures b in m {
      var p :| 0 <= p < |s| && s[p] == b;
      assert m[if p == k then i + 1 else if i < p < k then p + 1 else p] == b;
    }
  }

  lemma InsertedList(s: seq<BlockId>, i: nat, x: BlockId)
    requires NoDup(s) && i < |s| && x !in s
    ensures NoDup(Inserted(s, i, x)) && Elems(Inserted(s, i, x)) == Elems(s) + {x}
    ensures Inserted(s, i, x)[..i + 1] == s[..i + 1]
  {
    var m := Inserted(s, i, x);
    forall b | b in s || b == x ensures b in m {
      if b == x {
        assert m[i + 1] == b;
      } else {
        var p :| 0 <= p < |s| && s[p] == b;
        assert m[if p <= i then p else p + 1] == b;
      }
    }
  }

  /** to is from, or from with one block moved behind position i. */
  ghost predicate MovedBehind(from: seq<BlockId>, i: nat, to: seq<BlockId>) {
    to == from || exists k :: i < k < |from| && to == Moved(from, i, k)
  }

  /** Block k, which is bx, lies behind position i, and the block before it does not fall into it conditionally. */
  ghost predicate MayMove(s: seq<BlockId>, t: Table, i: nat, k: nat, bx: BlockId) {
    && i < k < |s| && s[k] == bx && s[k - 1] in t
    && (|t[s[k - 1]].succs| == 1 || !IsPredOf(t[s[k - 1]], bx))
  }

  /** bx can be moved up to follow position i. */
  ghost predicate CanMove(s: seq<BlockId>, t: Table, i: nat, bx: BlockId) {
    exists k: nat :: MayMove(s, t, i, k, bx)
  }

  ghost predicate IsPredOf(b: Block, bx: BlockId) {
    exists j :: 0 <= j < |b.succs| && b.succs[j].to == bx
  }

  // ----- What a finished block does -----

  /** A goto block put in by the pass; it leads straight to a block of t0. */
  ghost predicate IsInserted(t0: Table, b: Block) {
    b.ender.Goto? && |b.succs| == 1 && b.succs[0].con == FALL_THROUGH && b.succs[0].to in t0 && !b.connector
  }

  /** x is a block of t0, or an inserted goto that leads (through connectors) to a block of t0: that block. */
  ghost function Meant(t0: Table, rank: Rank, t: Table, x: BlockId): Option<BlockId>
    requires Grounded(t0, rank)
  {
    if x in t0 then Some(x)
    else if x in t && IsInserted(t0, t[x]) then Some(Resolve(t0, rank, t[x].succs[0].to))
    else None
  }

  /** Leaving b through d, with `next` behind it, leads where the graph t0 says. */
  ghost predicate Follows(t0: Table, rank: Rank, t: Table, b: BlockId, next: Option<BlockId>, d: nat)
    requires Grounded(t0, rank) && b in t0 && b in t && Shape(t[b])
  {
    match RouteOf(t[b], d)
    case Stop => false
    case Via(j) => t[b].succs[j].to in t0 && CfgNext(t0, rank, b, d) == Some(Resolve(t0, rank, t[b].succs[j].to))
    case Fall => next.Some? && CfgNext(t0, rank, b, d) == Meant(t0, rank, t, next.value)
  }

  /** Block b of t0, with `next` behind it, does what the graph t0 asks. */
  ghost predicate Done(t0: Table, rank: Rank, t: Table, b: BlockId, next: Option<BlockId>)
    requires Grounded(t0, rank) && b in t0 && b in t
  {
    && Shape(t[b])
    && t[b].ender.Exit? == t0[b].ender.Exit?
    && (!t0[b].ender.Exit? ==> forall d :: HasCon(t0[b], d) ==> Follows(t0, rank, t, b, next, d))
  }

  /** falls maps each finished block to the block behind it; block b is finished or as it came. */
  ghost predicate BlockInv(t0: Table, rank: Rank, t: Table, falls: map<BlockId, Option<BlockId>>, b: BlockId)
    requires Grounded(t0, rank) && b in t
  {
    if b in t0 then
      && t[b].connector == t0[b].connector
      && if b !in falls || t0[b].connector then t[b] == t0[b] else Done(t0, rank, t, b, falls[b])
    else
      IsInserted(t0, t[b]) && (t[b].hasGoto || (b in falls && falls[b] == Meant(t0, rank, t, b)))
  }

  ghost predicate TableInv(t0: Table, rank: Rank, t: Table, falls: map<BlockId, Option<BlockId>>) {
    && Grounded(t0, rank) && Grounded(t, rank)
    && t0.Keys <= t.Keys
    && forall b :: b in t ==> BlockInv(t0, rank, t, falls, b)
  }

  ghost predicate ListInv(root: BlockId, blocks: seq<BlockId>, keys: set<BlockId>, falls: map<BlockId, Option<BlockId>>,
                          i: nat)
  {
    && NoDup(blocks) && Elems(blocks) == keys
    && i <= |blocks| && 1 <= |blocks| && blocks[0] == root
    && falls.Keys == Elems(blocks[..i])
    && forall p :: 0 <= p < i ==> FallsAt(blocks, falls, p)
  }

  ghost predicate FallsAt(blocks: seq<BlockId>, falls: map<BlockId, Option<BlockId>>, p: nat)
    requires p < |blocks|
  {
    blocks[p] in falls && falls[blocks[p]] == NextOf(blocks, p)
  }

  // ----- One step, seen from the list and from the table -----

  lemma NextElem(s: seq<BlockId>, i: nat)
    requires NoDup(s) && i < |s|
    ensures Elems(s[..i + 1]) == Elems(s[..i]) + {s[i]} && s[i] !in Elems(s[..i])
    ensures forall p :: 0 <= p < i ==> s[p] in Elems(s[..i])
  {
    assert s[..i + 1] == s[..i] + [s[i]];
    assert forall p :: 0 <= p < i ==> s[..i][p] == s[p];
  }

  lemma SamePrefix(s: seq<BlockId>, t: seq<BlockId>, i: nat, p: nat)
    requires p <= i < |s| && i < |t| && t[..i + 1] == s[..i + 1]
    ensures t[p] == s[p]
  {
    assert t[..i + 1][p] == s[..i + 1][p];
  }

  lemma FallsKept(blocks: seq<BlockId>, falls: map<BlockId, Option<BlockId>>, i: nat, blocks': seq<BlockId>, p: nat)
    requires p < i < |blocks| && i < |blocks'| && blocks'[..i + 1] == blocks[..i + 1] && FallsAt(blocks, falls, p)
    ensures FallsAt(blocks', falls, p)
  {
    SamePrefix(blocks, blocks', i, p);
    SamePrefix(blocks, blocks', i, p + 1);
  }

  lemma ListStep(root: BlockId, blocks: seq<BlockId>, keys: set<BlockId>, falls: map<BlockId, Option<BlockId>>, i: nat,
                 blocks': seq<BlockId>, keys': set<BlockId>)
    requires ListInv(root, blocks, keys, falls, i) && i < |blocks|
    requires NoDup(blocks') && Elems(blocks') == keys' && |blocks| <= |blocks'| && blocks'[..i + 1] == blocks[..i + 1]
    ensures blocks[i] !in falls
    ensures ListInv(root, blocks', keys', falls[blocks[i] := NextOf(blocks', i)], i + 1)
  {
    NextElem(blocks, i);
    SamePrefix(blocks, blocks', i, 0);
    SamePrefix(blocks, blocks', i, i);
    var falls' := falls[blocks[i] := NextOf(blocks', i)];
    forall p | 0 <= p < i + 1 ensures FallsAt(blocks', falls', p) {
      if p < i {
        FallsKept(blocks, falls, i, blocks', p);
      }
    }
  }

  lemma BlockInvKept(t0: Table, rank: Rank, t: Table, falls: map<BlockId, Option<BlockId>>, b: BlockId,
                     next: Option<BlockId>, t': Table, c: BlockId)
    requires Grounded(t0, rank) && c in t && c in t' && c != b && t'[c] == t[c]
    requires BlockInv(t0, rank, t, falls, c)
    requires forall x :: x in t ==> x in t' && (x != b ==> t'[x] == t[x])
    requires b in t && b !in t0 ==> IsInserted(t0, t[b]) && IsInserted(t0, t'[b]) && t'[b].succs == t[b].succs
    ensures BlockInv(t0, rank, t', falls[b := next], c)
  {
    if c in t0 && c in falls && !t0[c].connector && !t0[c].ender.Exit? {
      forall d | HasCon(t0[c], d) ensures Follows(t0, rank, t', c, falls[c], d) {
        assert Follows(t0, rank, t, c, falls[c], d);
      }
    }
  }

  /** Fixing block b: nothing else changes, and what is new is an inserted goto. */
  lemma TableStep(t0: Table, rank: Rank, t: Table, falls: map<BlockId, Option<BlockId>>, b: BlockId,
                  next: Option<BlockId>, t': Table)
    requires TableInv(t0, rank, t, falls) && b in t && b !in falls && Grounded(t', rank)
    requires forall c :: c in t ==> c in t' && (c != b ==> t'[c] == t[c])
    requires forall c :: c in t' && c !in t ==> IsInserted(t0, t'[c]) && t'[c].hasGoto
    requires b !in t0 ==> t'[b].succs == t[b].succs
    requires BlockInv(t0, rank, t', falls[b := next], b)
    ensures TableInv(t0, rank, t', falls[b := next])
  {
    forall c | c in t' ensures BlockInv(t0, rank, t', falls[b := next], c) {
      if c != b && c in t {
        assert BlockInv(t0, rank, t, falls, c);
        assert BlockInv(t0, rank, t, falls, b);
        BlockInvKept(t0, rank, t, falls, b, next, t', c);
      }
    }
  }

  // ----- What fixing one block may do -----

  datatype Flow = Flow(blocks: seq<BlockId>, table: Table, nextId: BlockId)

  function Retargeted(b: Block, j: nat, x: BlockId): Block
    requires j < |b.succs|
  {
    b.(succs := b.succs[j := Edge(b.succs[j].con, x)])
  }

  function Swapped(b: Block): Block
    requires |b.succs| == 2
  {
    b.(succs := [b.succs[1], b.succs[0]])
  }

  function GotoTo(to: BlockId): Block {
    Block(Goto, [Edge(FALL_THROUGH, to)], [], false, true, true)
  }

  /** insert_goto_at */
  function GotoInserted(f: Flow, i: nat, j: nat): Flow
    requires i < |f.blocks| && f.blocks[i] in f.table && j < |f.table[f.blocks[i]].succs|
  {
    var b := f.table[f.blocks[i]];
    Flow(Inserted(f.blocks, i, f.nextId),
         f.table[f.nextId := GotoTo(b.succs[j].to)][f.blocks[i] := Retargeted(b, j, f.nextId)],
         f.nextId + 1)
  }

  /** f, or f with a goto behind position i when its k'th successor does not follow. */
  ghost predicate Settled(t: Table, rank: Rank, f: Flow, i: nat, k: nat, f': Flow)
    requires Grounded(t, rank)
  {
    && i < |f.blocks| && f.blocks[i] in f.table && k < |f.table[f.blocks[i]].succs|
    && var to := f.table[f.blocks[i]].succs[k].to;
       && to in t
       && if NextOf(f.blocks, i) == Some(Resolve(t, rank, to)) then f' == f else f' == GotoInserted(f, i, k)
  }

  ghost predicate OneWayFix(rank: Rank, f: Flow, i: nat, f': Flow)
    requires i < |f.blocks| && f.blocks[i] in f.table && Grounded(f.table, rank)
  {
    var b := f.table[f.blocks[i]];
    && 1 <= |b.succs|
    && f' == f.(table := f.table[f.blocks[i] :=
         b.(hasGoto := b.hasGoto && NextOf(f.blocks, i) != Some(Resolve(f.table, rank, b.succs[0].to)))])
  }

  /** nb branches to succs[0] exactly when b0's test selects that successor. */
  ghost predicate BranchesLike(b0: Block, nb: Block) {
    && TwoWay(b0.succs) && !b0.ender.Exit? && nb.connector == b0.connector
    && (nb.succs == b0.succs || nb.succs == [b0.succs[1], b0.succs[0]])
    && match nb.ender
       case If(negated) => negated == (nb.succs[0].con == IF_FALSE)
       case Trap(negated) => negated == (nb.succs[0].con == IF_FALSE)
       case NullCheck => nb.succs[0].con == IF_TRUE
       case _ => false
  }

  /** A two-way branch: some successor may move up, the branch goes to succs[0] and falls into succs[1]. */
  ghost predicate TwoWayFix(rank: Rank, f: Flow, i: nat, f': Flow)
    requires i < |f.blocks| && f.blocks[i] in f.table && Grounded(f.table, rank)
  {
    exists moved, nb :: TwoWayFixBy(rank, f, i, f', moved, nb)
  }

  ghost predicate TwoWayFixBy(rank: Rank, f: Flow, i: nat, f': Flow, moved: seq<BlockId>, nb: Block)
    requires i < |f.blocks| && f.blocks[i] in f.table && Grounded(f.table, rank)
  {
    && MovedBehind(f.blocks, i, moved)
    && BranchesLike(f.table[f.blocks[i]], nb)
    && Settled(f.table, rank, Flow(moved, f.table[f.blocks[i] := nb], f.nextId), i, 1, f')
  }

  /** nb is the table-driven branch b0, two successors possibly swapped. */
  ghost predicate TableLike(b0: Block, nb: Block) {
    && Shape(b0) && (b0.ender.Catch? || b0.ender.Jump?) && nb.connector == b0.connector
    && nb.ender == b0.ender
    && (nb.succs == b0.succs || (|b0.succs| == 2 && nb.succs == [b0.succs[1], b0.succs[0]]))
  }

  /** A table-driven branch: only the fall-through of a Catch needs attention. */
  ghost predicate TableFix(rank: Rank, f: Flow, i: nat, f': Flow)
    requires i < |f.blocks| && f.blocks[i] in f.table && Grounded(f.table, rank)
  {
    exists k: nat, nb :: TableFixBy(rank, f, i, f', k, nb)
  }

  ghost predicate TableFixBy(rank: Rank, f: Flow, i: nat, f': Flow, k: nat, nb: Block)
    requires i < |f.blocks| && f.blocks[i] in f.table && Grounded(f.table, rank)
  {
    var b := f.table[f.blocks[i]];
    && TableLike(b, nb) && k < |nb.succs|
    && (HasCon(b, FALL_THROUGH) <==> nb.succs[k].con == FALL_THROUGH)
    && if b.ender.Catch? && nb.succs[k].con == FALL_THROUGH
       then Settled(f.table, rank, f.(table := f.table[f.blocks[i] := nb]), i, k, f')
       else f' == f.(table := f.table[f.blocks[i] := nb])
  }

  /** Block i became nb, whose j'th successor is the one to fall into, and got a goto to it if that does not follow. */
  ghost predicate NoFlipFix(rank: Rank, f: Flow, i: nat, f': Flow, nb: Block, j: nat)
    requires i < |f.blocks| && f.blocks[i] in f.table && Grounded(f.table, rank)
  {
    var b, g := f.table[f.blocks[i]], f.(table := f.table[f.blocks[i] := nb]);
    && Shape(b) && nb.ender == b.ender && nb.connector == b.connector && j <= |nb.succs|
    && (nb.succs == b.succs || (|b.succs| == 2 && nb.succs == [b.succs[1], b.succs[0]])) && !(j == 0 && |b.succs| == 2)
    && (if j < |nb.succs| then nb.succs[j].con == FALL_THROUGH else !HasCon(b, FALL_THROUGH))
    && f' == if j < |nb.succs| && NextOf(f.blocks, i) != Some(Resolve(f.table, rank, nb.succs[j].to))
      then GotoInserted(g, i, j) else g
  }

  lemma NoFlipSettles(rank: Rank, f: Flow, i: nat, f': Flow, nb: Block, j: nat)
    requires i < |f.blocks| && f.blocks[i] in f.table && Grounded(f.table, rank) && NoFlipFix(rank, f, i, f', nb, j)
    requires j < |nb.succs|
    ensures Settled(f.table, rank, f.(table := f.table[f.blocks[i] := nb]), i, j, f')
    ensures HasCon(f.table[f.blocks[i]], FALL_THROUGH)
  {
    var b := f.table[f.blocks[i]];
    assert exists l :: 0 <= l < |b.succs| && b.succs[l] == nb.succs[j];
  }

  lemma NoFlipFixed(rank: Rank, f: Flow, i: nat, f': Flow, nb: Block, j: nat)
    requires i < |f.blocks| && f.blocks[i] in f.table && Grounded(f.table, rank) && NoFlipFix(rank, f, i, f', nb, j)
    requires nb.ender.NullCheck? || nb.ender.Catch?
    ensures if nb.ender.NullCheck? then TwoWayFix(rank, f, i, f') else TableFix(rank, f, i, f')
  {
    if j < |nb.succs| {
      NoFlipSettles(rank, f, i, f', nb, j);
    }
    if nb.ender.NullCheck? {
      assert TwoWayFixBy(rank, f, i, f', f.blocks, nb);
    } else {
      assert TableFixBy(rank, f, i, f', if j < |nb.succs| then j else 0, nb);
    }
  }

  lemma SensedGrounded(rank: Rank, t: Table, b: BlockId, nb: Block)
    requires Grounded(t, rank) && b in t && BranchesLike(t[b], nb) && !t[b].connector
    ensures Grounded(t[b := nb], rank) && KeepsConnectors(t, t[b := nb])
  {
    GroundedWith(t, rank, b, nb);
  }

  /** Once block i has become nb, moving its second successor up or putting a goto there fixes it. */
  lemma SensedFixed(rank: Rank, f: Flow, i: nat, f': Flow, list: seq<BlockId>, nb: Block)
    requires i < |f.blocks| && f.blocks[i] in f.table && Grounded(f.table, rank)
    requires BranchesLike(f.table[f.blocks[i]], nb) && !f.table[f.blocks[i]].connector && MovedBehind(f.blocks, i, list)
    requires Grounded(f.table[f.blocks[i] := nb], rank) && i < |list| && list[i] == f.blocks[i]
    requires Settled(f.table[f.blocks[i] := nb], rank, Flow(list, f.table[f.blocks[i] := nb], f.nextId), i, 1, f')
    ensures TwoWayFix(rank, f, i, f')
  {
    SensedGrounded(rank, f.table, f.blocks[i], nb);
    ResolveKept(f.table, f.table[f.blocks[i] := nb], rank, nb.succs[1].to);
    assert TwoWayFixBy(rank, f, i, f', list, nb);
  }

  /** One iteration of fixup_flow. */
  ghost predicate BlockFix(rank: Rank, f: Flow, i: nat, f': Flow) {
    && i < |f.blocks| && f.blocks[i] in f.table && Grounded(f.table, rank)
    && var b := f.table[f.blocks[i]];
       if b.connector then f' == f
       else if b.ender.Exit? || b.ender.Goto? then OneWayFix(rank, f, i, f')
       else if b.ender.Catch? || b.ender.Jump? then TableFix(rank, f, i, f')
       else TwoWayFix(rank, f, i, f')
  }

  // ----- A fixed block does what it should -----

  lemma OneWayDone(t0: Table, rank: Rank, t: Table, b: BlockId, next: Option<BlockId>)
    requires Grounded(t0, rank) && b in t0 && b in t && Shape(t0[b])
    requires t[b] == t0[b].(hasGoto := t[b].hasGoto) && (t[b].ender.Goto? || t[b].ender.Exit?)
    requires t[b].ender.Goto? && !t[b].hasGoto ==> next == Some(Resolve(t0, rank, t0[b].succs[0].to))
    ensures Done(t0, rank, t, b, next)
  {
  }

  lemma TwoWayFollows(t0: Table, rank: Rank, t: Table, b: BlockId, next: Option<BlockId>, nb: Block, x: BlockId, d: nat)
    requires Grounded(t0, rank) && b in t0 && b in t && BranchesLike(t0[b], nb)
    requires (t[b] == nb || t[b] == Retargeted(nb, 1, x)) && Shape(t[b]) && HasCon(t0[b], d)
    requires next.Some? && Meant(t0, rank, t, next.value) == Some(Resolve(t0, rank, nb.succs[1].to))
    ensures Follows(t0, rank, t, b, next, d)
  {
    assert d == IF_FALSE || d == IF_TRUE;
  }

  lemma TwoWayDone(t0: Table, rank: Rank, t: Table, b: BlockId, next: Option<BlockId>, nb: Block, x: BlockId)
    requires Grounded(t0, rank) && b in t0 && b in t && BranchesLike(t0[b], nb)
    requires t[b] == nb || t[b] == Retargeted(nb, 1, x)
    requires next.Some? && Meant(t0, rank, t, next.value) == Some(Resolve(t0, rank, nb.succs[1].to))
    ensures Done(t0, rank, t, b, next)
  {
    forall d | HasCon(t0[b], d) ensures Follows(t0, rank, t, b, next, d) {
      TwoWayFollows(t0, rank, t, b, next, nb, x, d);
    }
  }

  lemma SlotKept(b0: Block, nb: Block, d: nat)
    requires TableLike(b0, nb) && HasCon(b0, d)
    ensures Shape(nb) && Slot(nb.succs, d) < |nb.succs|
    ensures nb.succs[Slot(nb.succs, d)] == b0.succs[Slot(b0.succs, d)]
  {
    var j := Slot(b0.succs, d);
    if nb.succs != b0.succs {
      assert nb.succs[1 - j] == b0.succs[j];
    }
  }

  lemma SlotRetargeted(nb: Block, k: nat, x: BlockId, d: nat)
    requires Shape(nb) && k < |nb.succs|
    ensures Shape(Retargeted(nb, k, x)) && Slot(Retargeted(nb, k, x).succs, d) == Slot(nb.succs, d)
  {
    var succs := Retargeted(nb, k, x).succs;
    assert forall l :: 0 <= l < |succs| ==> succs[l].con == nb.succs[l].con;
    if Slot(nb.succs, d) < |succs| {
      assert succs[Slot(nb.succs, d)].con == d;
    }
  }

  /** b became nb, with a goto in front of its k'th successor, the one it falls into, if x is one. */
  ghost predicate TableBecame(t0: Table, t: Table, b: BlockId, nb: Block, k: nat, x: BlockId) {
    && b in t0 && b in t && TableLike(t0[b], nb) && k < |nb.succs|
    && (t[b] == nb || (nb.succs[k].con == FALL_THROUGH && nb.ender.Catch? && t[b] == Retargeted(nb, k, x)))
  }

  lemma TableShape(t0: Table, t: Table, b: BlockId, nb: Block, k: nat, x: BlockId)
    requires TableBecame(t0, t, b, nb, k, x)
    ensures Shape(t[b])
  {
    assert HasCon(t0[b], t0[b].succs[0].con);
    SlotKept(t0[b], nb, t0[b].succs[0].con);
    SlotRetargeted(nb, k, x, 0);
  }

  lemma TableFollows(t0: Table, rank: Rank, t: Table, b: BlockId, next: Option<BlockId>, nb: Block, k: nat, x: BlockId,
                     d: nat)
    requires Grounded(t0, rank) && TableBecame(t0, t, b, nb, k, x) && Shape(t[b]) && HasCon(t0[b], d)
    requires HasCon(t0[b], FALL_THROUGH) <==> nb.succs[k].con == FALL_THROUGH
    requires nb.ender.Catch? && nb.succs[k].con == FALL_THROUGH ==>
      next.Some? && Meant(t0, rank, t, next.value) == Some(Resolve(t0, rank, nb.succs[k].to))
    ensures Follows(t0, rank, t, b, next, d)
  {
    SlotKept(t0[b], nb, d);
    SlotRetargeted(nb, k, x, d);
  }

  lemma TableDone(t0: Table, rank: Rank, t: Table, b: BlockId, next: Option<BlockId>, nb: Block, k: nat, x: BlockId)
    requires Grounded(t0, rank) && TableBecame(t0, t, b, nb, k, x)
    requires HasCon(t0[b], FALL_THROUGH) <==> nb.succs[k].con == FALL_THROUGH
    requires nb.ender.Catch? && nb.succs[k].con == FALL_THROUGH ==>
      next.Some? && Meant(t0, rank, t, next.value) == Some(Resolve(t0, rank, nb.succs[k].to))
    ensures Done(t0, rank, t, b, next)
  {
    TableShape(t0, t, b, nb, k, x);
    forall d | HasCon(t0[b], d) ensures Follows(t0, rank, t, b, next, d) {
      TableFollows(t0, rank, t, b, next, nb, k, x, d);
    }
  }

  // ----- One iteration, seen from the table -----

  lemma GroundedWith(t: Table, rank: Rank, b: BlockId, nb: Block)
    requires Grounded(t, rank) && (b in t ==> nb.connector == t[b].connector)
    requires nb.connector ==> b in t && nb.succs == t[b].succs
    requires forall j :: 0 <= j < |nb.succs| ==> nb.succs[j].to in t
    ensures Grounded(t[b := nb], rank)
  {
  }

  lemma InPlaceTable(t0: Table, rank: Rank, t: Table, falls: map<BlockId, Option<BlockId>>, b: BlockId,
                     next: Option<BlockId>, nb: Block)
    requires TableInv(t0, rank, t, falls) && b in t && b !in falls && nb.connector == t[b].connector
    requires nb.connector || b !in t0 ==> nb.succs == t[b].succs
    requires forall j :: 0 <= j < |nb.succs| ==> nb.succs[j].to in t
    requires BlockInv(t0, rank, t[b := nb], falls[b := next], b)
    ensures TableInv(t0, rank, t[b := nb], falls[b := next])
  {
    GroundedWith(t, rank, b, nb);
    TableStep(t0, rank, t, falls, b, next, t[b := nb]);
  }

  /** The table once block b has become nb with a goto block x in front of its k'th successor. */
  ghost function WithGoto(t: Table, b: BlockId, nb: Block, k: nat, x: BlockId): (t': Table)
    requires k < |nb.succs| && b in t && x !in t
    ensures t'.Keys == t.Keys + {x} && t'[b] == Retargeted(nb, k, x) && t'[x] == GotoTo(nb.succs[k].to)
    ensures forall c :: c in t && c != b ==> t'[c] == t[c]
    ensures t' == t[b := nb][x := GotoTo(nb.succs[k].to)][b := Retargeted(nb, k, x)]
  {
    t[x := GotoTo(nb.succs[k].to)][b := Retargeted(nb, k, x)]
  }

  lemma WithGotoGrounded(t: Table, rank: Rank, b: BlockId, nb: Block, k: nat, x: BlockId)
    requires Grounded(t, rank) && b in t && x !in t && !nb.connector && !t[b].connector && k < |nb.succs|
    requires forall j :: 0 <= j < |nb.succs| ==> nb.succs[j].to in t
    ensures Grounded(WithGoto(t, b, nb, k, x), rank)
  {
    GroundedWith(t, rank, x, GotoTo(nb.succs[k].to));
    GroundedWith(t[x := GotoTo(nb.succs[k].to)], rank, b, Retargeted(nb, k, x));
  }

  lemma GotoTable(t0: Table, rank: Rank, t: Table, falls: map<BlockId, Option<BlockId>>, b: BlockId, nb: Block, k: nat,
                  x: BlockId, t': Table)
    requires TableInv(t0, rank, t, falls) && b in t && b !in falls && b in t0 && x !in t && !nb.connector
    requires !t[b].connector
    requires k < |nb.succs| && nb.succs[k].to in t0 && (forall j :: 0 <= j < |nb.succs| ==> nb.succs[j].to in t)
    requires t' == WithGoto(t, b, nb, k, x) && !t0[b].connector && Done(t0, rank, t', b, Some(x))
    ensures TableInv(t0, rank, t', falls[b := Some(x)])
  {
    WithGotoGrounded(t, rank, b, nb, k, x);
    TableStep(t0, rank, t, falls, b, Some(x), t');
  }

  /** Non-connector block b of t is as fixup_flow expects it. */
  ghost predicate InputBlock(t: Table, rank: Rank, root: BlockId, b: BlockId)
    requires Grounded(t, rank) && b in t
  {
    && Shape(t[b])
    && (t[b].ender.Goto? ==> t[b].hasGoto)
    && (t[b].ender.If? || t[b].ender.Trap? ==> !t[b].ender.negated)
    && (t[b].ender.If? || NoFlip(t[b]) ==> MatchedProjs(t[b]))
    && (t[b].ender.Exit? ==> Resolve(t, rank, t[b].succs[0].to) == root)
  }

  predicate MatchedProjs(b: Block) {
    |b.projs| == |b.succs| && forall j :: 0 <= j < |b.succs| ==> b.projs[j] == b.succs[j].con
  }

  /** Connectors of t0 are still there, so t resolves its blocks like t0. */
  lemma ResolveLike(t0: Table, rank: Rank, t: Table, falls: map<BlockId, Option<BlockId>>, b: BlockId)
    requires TableInv(t0, rank, t, falls) && b in t0
    ensures Resolve(t, rank, b) == Resolve(t0, rank, b)
  {
    assert forall c :: c in t0 ==> BlockInv(t0, rank, t, falls, c);
    ResolveKept(t0, t, rank, b);
  }

  lemma OneWayTable(t0: Table, rank: Rank, root: BlockId, f: Flow, i: nat, f': Flow,
                    falls: map<BlockId, Option<BlockId>>)
    requires TableInv(t0, rank, f.table, falls) && i < |f.blocks| && f.blocks[i] in f.table && f.blocks[i] !in falls
    requires var b := f.table[f.blocks[i]]; !b.connector && (b.ender.Goto? || b.ender.Exit?)
    requires f.blocks[i] in t0 ==> InputBlock(t0, rank, root, f.blocks[i])
    requires OneWayFix(rank, f, i, f')
    ensures TableInv(t0, rank, f'.table, falls[f.blocks[i] := NextOf(f'.blocks, i)])
  {
    var b := f.blocks[i];
    assert BlockInv(t0, rank, f.table, falls, b);
    ResolveLike(t0, rank, f.table, falls, f.table[b].succs[0].to);
    if b in t0 {
      OneWayDone(t0, rank, f'.table, b, NextOf(f'.blocks, i));
    }
    InPlaceTable(t0, rank, f.table, falls, b, NextOf(f'.blocks, i), f'.table[b]);
  }

  lemma UnfinishedBlock(t0: Table, rank: Rank, t: Table, falls: map<BlockId, Option<BlockId>>, b: BlockId)
    requires TableInv(t0, rank, t, falls) && b in t0 && b !in falls
    ensures b in t && t[b] == t0[b] &&
      forall j :: 0 <= j < |t0[b].succs| ==> t0[b].succs[j].to in t0 && t0[b].succs[j].to in t
  {
    assert BlockInv(t0, rank, t, falls, b);
  }

  lemma TwoWayFalls(t0: Table, rank: Rank, t: Table, falls: map<BlockId, Option<BlockId>>, b: BlockId, nb: Block)
    requires TableInv(t0, rank, t, falls) && b in t0 && b !in falls && BranchesLike(t[b], nb) && !t[b].connector
    requires nb.succs[1].to in t0
    ensures TableInv(t0, rank, t[b := nb], falls[b := Some(Resolve(t0, rank, nb.succs[1].to))])
  {
    UnfinishedBlock(t0, rank, t, falls, b);
    var next := Some(Resolve(t0, rank, nb.succs[1].to));
    assert BlockInv(t0, rank, t[b := nb], falls[b := next], b) by {
      TwoWayDone(t0, rank, t[b := nb], b, next, nb, 0);
    }
    InPlaceTable(t0, rank, t, falls, b, next, nb);
  }

  lemma TwoWayGotoDone(t0: Table, rank: Rank, t: Table, b: BlockId, nb: Block, x: BlockId)
    requires Grounded(t0, rank) && b in t0 && b in t && x !in t && x !in t0 && BranchesLike(t0[b], nb)
    requires nb.succs[1].to in t0
    ensures Done(t0, rank, WithGoto(t, b, nb, 1, x), b, Some(x))
  {
    TwoWayDone(t0, rank, WithGoto(t, b, nb, 1, x), b, Some(x), nb, x);
  }

  lemma TableGotoDone(t0: Table, rank: Rank, t: Table, b: BlockId, nb: Block, k: nat, x: BlockId)
    requires Grounded(t0, rank) && b in t0 && b in t && x !in t && x !in t0 && TableLike(t0[b], nb) && k < |nb.succs|
    requires HasCon(t0[b], FALL_THROUGH) && nb.succs[k].con == FALL_THROUGH && nb.ender.Catch? && nb.succs[k].to in t0
    ensures Done(t0, rank, WithGoto(t, b, nb, k, x), b, Some(x))
  {
    TableDone(t0, rank, WithGoto(t, b, nb, k, x), b, Some(x), nb, k, x);
  }

  lemma TwoWayJumps(t0: Table, rank: Rank, t: Table, falls: map<BlockId, Option<BlockId>>, b: BlockId, nb: Block,
                    x: BlockId)
    requires TableInv(t0, rank, t, falls) && b in t0 && b !in falls && BranchesLike(t[b], nb) && !t[b].connector
    requires x !in t
    ensures TableInv(t0, rank, WithGoto(t, b, nb, 1, x), falls[b := Some(x)])
  {
    UnfinishedBlock(t0, rank, t, falls, b);
    TwoWayGotoDone(t0, rank, t, b, nb, x);
    GotoTable(t0, rank, t, falls, b, nb, 1, x, WithGoto(t, b, nb, 1, x));
  }

  lemma TableFalls(t0: Table, rank: Rank, t: Table, falls: map<BlockId, Option<BlockId>>, b: BlockId, nb: Block, k: nat,
                   next: Option<BlockId>)
    requires TableInv(t0, rank, t, falls) && b in t0 && b !in falls && TableLike(t[b], nb) && !t[b].connector
    requires k < |nb.succs|
    requires HasCon(t[b], FALL_THROUGH) <==> nb.succs[k].con == FALL_THROUGH
    requires nb.ender.Catch? && nb.succs[k].con == FALL_THROUGH ==>
      nb.succs[k].to in t0 && next == Some(Resolve(t0, rank, nb.succs[k].to))
    ensures TableInv(t0, rank, t[b := nb], falls[b := next])
  {
    UnfinishedBlock(t0, rank, t, falls, b);
    assert BlockInv(t0, rank, t[b := nb], falls[b := next], b) by {
      TableDone(t0, rank, t[b := nb], b, next, nb, k, 0);
    }
    InPlaceTable(t0, rank, t, falls, b, next, nb);
  }

  lemma SuccsKnown(t: Table, b: BlockId, nb: Block)
    requires b in t && (forall j :: 0 <= j < |t[b].succs| ==> t[b].succs[j].to in t)
    requires nb.succs == t[b].succs || (|t[b].succs| == 2 && nb.succs == [t[b].succs[1], t[b].succs[0]])
    ensures forall j :: 0 <= j < |nb.succs| ==> nb.succs[j].to in t
  {
  }

  lemma TableJumps(t0: Table, rank: Rank, t: Table, falls: map<BlockId, Option<BlockId>>, b: BlockId, nb: Block, k: nat,
                   x: BlockId)
    requires TableInv(t0, rank, t, falls) && b in t0 && b !in falls && TableLike(t[b], nb) && !t[b].connector
    requires k < |nb.succs| && x !in t
    requires HasCon(t[b], FALL_THROUGH) && nb.succs[k].con == FALL_THROUGH && nb.ender.Catch?
    ensures TableInv(t0, rank, WithGoto(t, b, nb, k, x), falls[b := Some(x)])
  {
    UnfinishedBlock(t0, rank, t, falls, b);
    SuccsKnown(t, b, nb);
    TableGotoDone(t0, rank, t, b, nb, k, x);
    GotoTable(t0, rank, t, falls, b, nb, k, x, WithGoto(t, b, nb, k, x));
  }

  lemma TwoWayTable(t0: Table, rank: Rank, f: Flow, i: nat, f': Flow, falls: map<BlockId, Option<BlockId>>,
                    moved: seq<BlockId>, nb: Block)
    requires TableInv(t0, rank, f.table, falls) && i < |f.blocks| && f.blocks[i] in t0 && f.blocks[i] !in falls
    requires !f.table[f.blocks[i]].connector && f.nextId !in f.table && TwoWayFixBy(rank, f, i, f', moved, nb)
    ensures TableInv(t0, rank, f'.table, falls[f.blocks[i] := NextOf(f'.blocks, i)])
  {
    var b := f.blocks[i];
    UnfinishedBlock(t0, rank, f.table, falls, b);
    assert moved[i] == b;
    ResolveLike(t0, rank, f.table, falls, nb.succs[1].to);
    if NextOf(moved, i) == Some(Resolve(t0, rank, nb.succs[1].to)) {
      TwoWayFalls(t0, rank, f.table, falls, b, nb);
    } else {
      assert f'.table == WithGoto(f.table, b, nb, 1, f.nextId);
      TwoWayJumps(t0, rank, f.table, falls, b, nb, f.nextId);
    }
  }

  lemma CatchTable(t0: Table, rank: Rank, f: Flow, i: nat, f': Flow, falls: map<BlockId, Option<BlockId>>, k: nat,
                   nb: Block)
    requires TableInv(t0, rank, f.table, falls) && i < |f.blocks| && f.blocks[i] in t0 && f.blocks[i] !in falls
    requires !f.table[f.blocks[i]].connector && f.nextId !in f.table && TableFixBy(rank, f, i, f', k, nb)
    ensures TableInv(t0, rank, f'.table, falls[f.blocks[i] := NextOf(f'.blocks, i)])
  {
    var b := f.blocks[i];
    UnfinishedBlock(t0, rank, f.table, falls, b);
    ResolveLike(t0, rank, f.table, falls, nb.succs[k].to);
    if nb.ender.Catch? && nb.succs[k].con == FALL_THROUGH &&
      NextOf(f.blocks, i) != Some(Resolve(t0, rank, nb.succs[k].to)) {
      assert f'.table == WithGoto(f.table, b, nb, k, f.nextId);
      TableJumps(t0, rank, f.table, falls, b, nb, k, f.nextId);
    } else {
      TableFalls(t0, rank, f.table, falls, b, nb, k, NextOf(f'.blocks, i));
    }
  }

  lemma ConnectorTable(t0: Table, rank: Rank, t: Table, falls: map<BlockId, Option<BlockId>>, b: BlockId,
                       next: Option<BlockId>)
    requires TableInv(t0, rank, t, falls) && b in t && b !in falls && t[b].connector
    ensures TableInv(t0, rank, t, falls[b := next])
  {
    assert BlockInv(t0, rank, t, falls, b);
    assert t == t[b := t[b]];
    InPlaceTable(t0, rank, t, falls, b, next, t[b]);
  }

  /** What is not a block of the graph is an inserted goto. */
  lemma BlockIsInserted(t0: Table, rank: Rank, t: Table, falls: map<BlockId, Option<BlockId>>, b: BlockId)
    requires TableInv(t0, rank, t, falls) && b in t
    ensures b in t0 || (!t[b].connector && t[b].ender.Goto?)
    ensures b in t0 ==> t[b].connector == t0[b].connector
  {
    assert BlockInv(t0, rank, t, falls, b);
  }

  /** One iteration takes the table invariant on. */
  lemma BlockFixTable(t0: Table, rank: Rank, root: BlockId, f: Flow, i: nat, f': Flow,
                      falls: map<BlockId, Option<BlockId>>)
    requires TableInv(t0, rank, f.table, falls) && BlockFix(rank, f, i, f') && f.blocks[i] !in falls
    requires f.nextId !in f.table
    requires forall b :: b in t0 && !t0[b].connector ==> InputBlock(t0, rank, root, b)
    ensures TableInv(t0, rank, f'.table, falls[f.blocks[i] := NextOf(f'.blocks, i)])
  {
    var b := f.blocks[i];
    BlockIsInserted(t0, rank, f.table, falls, b);
    if f.table[b].connector {
      ConnectorTable(t0, rank, f.table, falls, b, NextOf(f'.blocks, i));
    } else if f.table[b].ender.Exit? || f.table[b].ender.Goto? {
      OneWayTable(t0, rank, root, f, i, f', falls);
    } else if f.table[b].ender.Catch? || f.table[b].ender.Jump? {
      var k: nat, nb :| TableFixBy(rank, f, i, f', k, nb);
      CatchTable(t0, rank, f, i, f', falls, k, nb);
    } else {
      var moved, nb :| TwoWayFixBy(rank, f, i, f', moved, nb);
      TwoWayTable(t0, rank, f, i, f', falls, moved, nb);
    }
  }

  // ----- One iteration, seen from the list -----

  lemma MovedBehindList(from: seq<BlockId>, i: nat, to: seq<BlockId>)
    requires NoDup(from) && i < |from| && MovedBehind(from, i, to)
    ensures NoDup(to) && Elems(to) == Elems(from) && |to| == |from| && to[..i + 1] == from[..i + 1]
  {
    if to != from {
      var k :| i < k < |from| && to == Moved(from, i, k);
      MovedList(from, i, k);
    }
  }

  /** What an iteration does to the list: one block may move up behind i, and one new block may follow i. */
  ghost predicate ListFix(f: Flow, i: nat, f': Flow, moved: seq<BlockId>) {
    && i < |f.blocks| && MovedBehind(f.blocks, i, moved) && |moved| == |f.blocks|
    && (|| (f'.blocks == moved && f'.table.Keys == f.table.Keys && f'.nextId == f.nextId)
        || (f'.blocks == Inserted(moved, i, f.nextId) && f'.table.Keys == f.table.Keys + {f.nextId} &&
          f'.nextId == f.nextId + 1))
  }

  lemma SettledIsListFix(t: Table, rank: Rank, f: Flow, i: nat, k: nat, f': Flow)
    requires Grounded(t, rank) && Settled(t, rank, f, i, k, f')
    ensures f' == f || (f'.blocks == Inserted(f.blocks, i, f.nextId) && f'.table.Keys == f.table.Keys + {f.nextId} &&
      f'.nextId == f.nextId + 1)
  {
  }

  lemma TableFixIsListFix(rank: Rank, f: Flow, i: nat, f': Flow)
    requires i < |f.blocks| && f.blocks[i] in f.table && Grounded(f.table, rank) && TableFix(rank, f, i, f')
    ensures ListFix(f, i, f', f.blocks)
  {
    var id := f.blocks[i];
    var k: nat, nb :| TableFixBy(rank, f, i, f', k, nb);
    if f.table[id].ender.Catch? && nb.succs[k].con == FALL_THROUGH {
      SettledIsListFix(f.table, rank, f.(table := f.table[id := nb]), i, k, f');
    }
  }

  lemma TwoWayFixIsListFix(rank: Rank, f: Flow, i: nat, f': Flow) returns (moved: seq<BlockId>)
    requires i < |f.blocks| && f.blocks[i] in f.table && Grounded(f.table, rank) && TwoWayFix(rank, f, i, f')
    ensures ListFix(f, i, f', moved)
  {
    var m, nb :| TwoWayFixBy(rank, f, i, f', m, nb);
    moved := m;
    TwoWayByIsListFix(rank, f, i, f', m, nb);
  }

  lemma TwoWayByIsListFix(rank: Rank, f: Flow, i: nat, f': Flow, moved: seq<BlockId>, nb: Block)
    requires i < |f.blocks| && f.blocks[i] in f.table && Grounded(f.table, rank)
    requires TwoWayFixBy(rank, f, i, f', moved, nb)
    ensures ListFix(f, i, f', moved)
  {
    var g := Flow(moved, f.table[f.blocks[i] := nb], f.nextId);
    assert g.table.Keys == f.table.Keys;
    SettledIsListFix(f.table, rank, g, i, 1, f');
  }

  lemma BlockFixIsListFix(rank: Rank, f: Flow, i: nat, f': Flow) returns (moved: seq<BlockId>)
    requires BlockFix(rank, f, i, f')
    ensures ListFix(f, i, f', moved)
  {
    moved := f.blocks;
    var id := f.blocks[i];
    var b := f.table[id];
    if b.connector || b.ender.Exit? || b.ender.Goto? {
    } else if b.ender.Catch? || b.ender.Jump? {
      TableFixIsListFix(rank, f, i, f');
    } else {
      moved := TwoWayFixIsListFix(rank, f, i, f');
    }
  }

  ghost predicate AllBelow(keys: set<BlockId>, n: BlockId) {
    forall b :: b in keys ==> b < n
  }

  /** One iteration takes the list invariant on and leaves positions up to i alone. */
  lemma BlockFixList(rank: Rank, root: BlockId, f: Flow, i: nat, f': Flow, falls: map<BlockId, Option<BlockId>>)
    requires ListInv(root, f.blocks, f.table.Keys, falls, i) && BlockFix(rank, f, i, f')
    requires AllBelow(f.table.Keys, f.nextId)
    ensures f.blocks[i] !in falls
    ensures ListInv(root, f'.blocks, f'.table.Keys, falls[f.blocks[i] := NextOf(f'.blocks, i)], i + 1)
    ensures |f.blocks| <= |f'.blocks| && f'.blocks[..i + 1] == f.blocks[..i + 1] && AllBelow(f'.table.Keys, f'.nextId)
  {
    var moved := BlockFixIsListFix(rank, f, i, f');
    MovedBehindList(f.blocks, i, moved);
    if f'.blocks != moved {
      assert f.nextId !in Elems(moved);
      InsertedList(moved, i, f.nextId);
    }
    ListStep(root, f.blocks, f.table.Keys, falls, i, f'.blocks, f'.table.Keys);
  }

  // ----- The pass -----

  /** What fixup_flow is handed: connector chains end, every block is listed once, and blocks end as expected. */
  ghost predicate Input(blocks: seq<BlockId>, t: Table, rank: Rank) {
    && Grounded(t, rank)
    && NoDup(blocks) && Elems(blocks) == t.Keys && 1 <= |blocks|
    && forall b :: b in t && !t[b].connector ==> InputBlock(t, rank, blocks[0], b)
  }

  ghost predicate PassInv(t0: Table, rank: Rank, root: BlockId, f: Flow, falls: map<BlockId, Option<BlockId>>, i: nat) {
    && ListInv(root, f.blocks, f.table.Keys, falls, i)
    && TableInv(t0, rank, f.table, falls)
    && AllBelow(f.table.Keys, f.nextId)
    && forall b :: b in t0 && !t0[b].connector ==> InputBlock(t0, rank, root, b)
  }

  ghost predicate Labels(blocks: seq<BlockId>, preOrder: map<BlockId, nat>, i: nat)
    requires i <= |blocks|
  {
    forall p :: 0 <= p < i ==> blocks[p] in preOrder && preOrder[blocks[p]] == p
  }

  lemma LabelNext(blocks: seq<BlockId>, preOrder: map<BlockId, nat>, i: nat)
    requires i < |blocks| && NoDup(blocks) && Labels(blocks, preOrder, i)
    ensures Labels(blocks, preOrder[blocks[i] := i], i + 1)
  {
  }

  lemma LabelsKept(blocks: seq<BlockId>, preOrder: map<BlockId, nat>, i: nat, blocks': seq<BlockId>)
    requires i <= |blocks| && i <= |blocks'| && Labels(blocks, preOrder, i) && blocks'[..i] == blocks[..i]
    ensures Labels(blocks', preOrder, i)
  {
    assert forall p :: 0 <= p < i ==> blocks'[p] == blocks'[..i][p] == blocks[p];
  }

  lemma PassStart(rank: Rank, f: Flow)
    requires Input(f.blocks, f.table, rank) && AllBelow(f.table.Keys, f.nextId)
    ensures PassInv(f.table, rank, f.blocks[0], f, map[], 0)
  {
  }

  /** A block as fixup_flow may find it, whether it came with the graph or was inserted. */
  predicate Fixable(b: Block) {
    && Shape(b)
    && (b.ender.If? || b.ender.Trap? ==> !b.ender.negated)
    && (b.ender.If? || NoFlip(b) ==> MatchedProjs(b))
  }

  /** A block that is not finished is as it came, or is an inserted goto. */
  lemma BlockIsFixable(t0: Table, rank: Rank, root: BlockId, t: Table, falls: map<BlockId, Option<BlockId>>, b: BlockId)
    requires TableInv(t0, rank, t, falls) && b in t && b !in falls && !t[b].connector
    requires b in t0 && !t0[b].connector ==> InputBlock(t0, rank, root, b)
    ensures Fixable(t[b])
  {
    assert BlockInv(t0, rank, t, falls, b);
  }

  lemma NextIsFixable(t0: Table, rank: Rank, root: BlockId, f: Flow, falls: map<BlockId, Option<BlockId>>, i: nat)
    requires PassInv(t0, rank, root, f, falls, i) && i < |f.blocks|
    ensures f.blocks[i] in f.table && Grounded(f.table, rank) && f.blocks[i] !in falls
    ensures Elems(f.blocks) == f.table.Keys && NoDup(f.blocks)
    ensures !f.table[f.blocks[i]].connector ==> Fixable(f.table[f.blocks[i]])
  {
    var b := f.blocks[i];
    assert b in Elems(f.blocks);
    NextElem(f.blocks, i);
    if !f.table[b].connector {
      BlockIsFixable(t0, rank, root, f.table, falls, b);
    }
  }

  /** An iteration keeps the invariant, and either finishes a block of the graph or leaves the list length alone. */
  lemma PassStep(t0: Table, rank: Rank, root: BlockId, f: Flow, falls: map<BlockId, Option<BlockId>>, i: nat, f': Flow)
    requires PassInv(t0, rank, root, f, falls, i) && BlockFix(rank, f, i, f')
    ensures PassInv(t0, rank, root, f', falls[f.blocks[i] := NextOf(f'.blocks, i)], i + 1)
    ensures |f.blocks| <= |f'.blocks| && f'.blocks[..i + 1] == f.blocks[..i + 1]
    ensures f.blocks[i] in t0 || |f'.blocks| == |f.blocks|
    ensures f.blocks[i] !in falls
  {
    BlockFixList(rank, root, f, i, f', falls);
    BlockFixTable(t0, rank, root, f, i, f', falls);
    assert BlockInv(t0, rank, f.table, falls, f.blocks[i]);
  }

  ghost predicate GoodStart(f0: Flow, rank: Rank) {
    Input(f0.blocks, f0.table, rank) && AllBelow(f0.table.Keys, f0.nextId)
  }

  ghost predicate IterationAt(rank: Rank, run: seq<Flow>, k: nat)
    requires k + 1 < |run|
  {
    BlockFix(rank, run[k], k, run[k + 1])
  }

  /** run lists the states between the iterations, whatever the moves. */
  ghost predicate IsRun(rank: Rank, run: seq<Flow>) {
    && 1 <= |run| && GoodStart(run[0], rank)
    && forall k :: 0 <= k < |run| - 1 ==> IterationAt(rank, run, k)
  }

  /** After k iterations the first k positions are finished. */
  lemma {:induction false} RunPass(rank: Rank, run: seq<Flow>, k: nat) returns (falls: map<BlockId, Option<BlockId>>)
    requires IsRun(rank, run) && k < |run|
    ensures PassInv(run[0].table, rank, run[0].blocks[0], run[k], falls, k)
    decreases k
  {
    if k == 0 {
      PassStart(rank, run[0]);
      falls := map[];
    } else {
      var before := RunPass(rank, run, k - 1);
      assert IterationAt(rank, run, k - 1);
      PassStep(run[0].table, rank, run[0].blocks[0], run[k - 1], before, k - 1, run[k]);
      falls := before[run[k - 1].blocks[k - 1] := NextOf(run[k].blocks, k - 1)];
    }
  }

  /** IsRun, folded: it opens where IsRun is mentioned. */
  ghost predicate Runs(rank: Rank, run: seq<Flow>) {
    forall r: seq<Flow> :: r == run ==> IsRun(rank, r)
  }

  lemma RunStarts(rank: Rank, f: Flow)
    requires GoodStart(f, rank)
    ensures Runs(rank, [f])
  {
  }

  lemma RunEnds(rank: Rank, run: seq<Flow>)
    requires Runs(rank, run)
    ensures IsRun(rank, run)
  {
    assert IsRun(rank, run);
  }

  lemma RunFixable(rank: Rank, run: seq<Flow>, f: Flow, i: nat)
    requires Runs(rank, run) && |run| == i + 1 && f == run[i] && i < |f.blocks|
    ensures f.blocks[i] in f.table && Grounded(f.table, rank) && Elems(f.blocks) == f.table.Keys && NoDup(f.blocks)
    ensures !f.table[f.blocks[i]].connector ==> Fixable(f.table[f.blocks[i]])
  {
    assert IsRun(rank, run);
    var falls := RunPass(rank, run, i);
    NextIsFixable(run[0].table, rank, run[0].blocks[0], f, falls, i);
  }

  lemma RunExtended(rank: Rank, run: seq<Flow>, f': Flow)
    requires IsRun(rank, run) && BlockFix(rank, run[|run| - 1], |run| - 1, f')
    ensures IsRun(rank, run + [f'])
  {
    var longer := run + [f'];
    forall k | 0 <= k < |longer| - 1 ensures IterationAt(rank, longer, k) {
      if k < |run| - 1 {
        assert IterationAt(rank, run, k);
      }
    }
  }

  lemma ElemsExtended(s: seq<BlockId>, m: seq<BlockId>, i: nat)
    requires i < |s| && i < |m| && m[..i + 1] == s[..i + 1]
    ensures Elems(m[..i + 1]) == Elems(s[..i]) + {s[i]}
  {
    assert s[..i + 1] == s[..i] + [s[i]];
  }

  /** Positions up to i stay put, and either a block of the graph was finished or the list did not grow. */
  lemma RunNext(rank: Rank, run: seq<Flow>, i: nat, f: Flow, f': Flow)
    requires IsRun(rank, run) && |run| == i + 1 && f == run[i] && BlockFix(rank, f, i, f')
    ensures |f.blocks| <= |f'.blocks| && f'.blocks[..i + 1] == f.blocks[..i + 1]
    ensures f.blocks[i] !in Elems(f.blocks[..i]) && Elems(f'.blocks[..i + 1]) == Elems(f.blocks[..i]) + {f.blocks[i]}
    ensures f.blocks[i] in run[0].table || |f'.blocks| == |f.blocks|
  {
    var falls := RunPass(rank, run, i);
    PassStep(run[0].table, rank, run[0].blocks[0], f, falls, i, f');
    ElemsExtended(f.blocks, f'.blocks, i);
  }

  /** RunNext, with the run that goes on and the labels of the positions that are finished. */
  lemma RunGoesOn(rank: Rank, run: seq<Flow>, i: nat, f: Flow, f': Flow, preOrder: map<BlockId, nat>)
    requires Runs(rank, run) && |run| == i + 1 && f == run[i] && BlockFix(rank, f, i, f')
    requires Labels(f.blocks, preOrder, i + 1)
    ensures Runs(rank, run + [f']) && i + 1 <= |f'.blocks| && Labels(f'.blocks, preOrder, i + 1)
    ensures f.blocks[i] !in Elems(f.blocks[..i]) && Elems(f'.blocks[..i + 1]) == Elems(f.blocks[..i]) + {f.blocks[i]}
    ensures f.blocks[i] in run[0].table || |f'.blocks| == |f.blocks|
  {
    assert IsRun(rank, run);
    RunNext(rank, run, i, f, f');
    LabelsKept(f.blocks, preOrder, i + 1, f'.blocks);
    RunExtended(rank, run, f');
  }

  // ----- The list runs like the graph -----

  lemma FinalFall(root: BlockId, blocks: seq<BlockId>, keys: set<BlockId>, falls: map<BlockId, Option<BlockId>>, p: nat)
    requires ListInv(root, blocks, keys, falls, |blocks|) && p < |blocks|
    ensures blocks[p] in keys && blocks[p] in falls && falls[blocks[p]] == NextOf(blocks, p)
  {
    assert blocks[p] in Elems(blocks);
    assert blocks[..|blocks|] == blocks;
    assert FallsAt(blocks, falls, p);
  }

  lemma FinalBlock(t0: Table, rank: Rank, root: BlockId, f: Flow, falls: map<BlockId, Option<BlockId>>, p: nat)
    requires PassInv(t0, rank, root, f, falls, |f.blocks|) && p < |f.blocks|
    ensures var b := f.blocks[p];
      && b in f.table && BlockInv(t0, rank, f.table, falls, b)
      && b in falls && falls[b] == NextOf(f.blocks, p)
  {
    FinalFall(root, f.blocks, f.table.Keys, falls, p);
  }

  lemma FinalPlaced(t0: Table, rank: Rank, root: BlockId, f: Flow, falls: map<BlockId, Option<BlockId>>)
    requires PassInv(t0, rank, root, f, falls, |f.blocks|)
    ensures Placed(f.blocks, f.table, rank)
  {
    forall p | 0 <= p < |f.blocks|
      ensures f.blocks[p] in f.table && (!f.table[f.blocks[p]].connector ==> Shape(f.table[f.blocks[p]]))
    {
      FinalBlock(t0, rank, root, f, falls, p);
    }
  }

  /** A finished block of the graph hands control where the graph says, or to a goto that does. */
  lemma FinalStep(t0: Table, rank: Rank, root: BlockId, f: Flow, falls: map<BlockId, Option<BlockId>>, p: nat, d: nat)
    requires PassInv(t0, rank, root, f, falls, |f.blocks|) && Placed(f.blocks, f.table, rank) && p < |f.blocks|
    requires f.blocks[p] in t0 && !f.table[f.blocks[p]].connector && HasCon(t0[f.blocks[p]], d)
    ensures var n := LinNext(f.blocks, f.table, rank, p, d);
      if n.None? then CfgNext(t0, rank, f.blocks[p], d).None?
        else CfgNext(t0, rank, f.blocks[p], d) == Meant(t0, rank, f.table, n.value)
  {
    FinalBlock(t0, rank, root, f, falls, p);
    var b := f.blocks[p];
    if !t0[b].ender.Exit? {
      assert Follows(t0, rank, f.table, b, falls[b], d);
      match RouteOf(f.table[b], d)
      case Via(j) => ResolveLike(t0, rank, f.table, falls, f.table[b].succs[j].to);
      case _ =>
    }
  }

  /** A goto that was put in hands control to the block it stands for. */
  lemma FinalGoto(t0: Table, rank: Rank, root: BlockId, f: Flow, falls: map<BlockId, Option<BlockId>>, p: nat)
    requires PassInv(t0, rank, root, f, falls, |f.blocks|) && Placed(f.blocks, f.table, rank) && p < |f.blocks|
    requires f.blocks[p] !in t0
    ensures !f.table[f.blocks[p]].connector
    ensures LinNext(f.blocks, f.table, rank, p, FALL_THROUGH) == Meant(t0, rank, f.table, f.blocks[p])
    ensures Meant(t0, rank, f.table, f.blocks[p]).Some?
  {
    FinalBlock(t0, rank, root, f, falls, p);
    ResolveLike(t0, rank, f.table, falls, f.table[f.blocks[p]].succs[0].to);
  }

  /** Labels lead to the block they name. */
  lemma FinalArrival(t0: Table, rank: Rank, root: BlockId, f: Flow, falls: map<BlockId, Option<BlockId>>,
                     labels: map<BlockId, nat>, n: BlockId)
    requires PassInv(t0, rank, root, f, falls, |f.blocks|) && Labels(f.blocks, labels, |f.blocks|)
    requires n in f.table && !f.table[n].connector
    ensures var q := Arrival(f.blocks, f.table, labels, Some(n));
      q.Some? && q.value < |f.blocks| && f.blocks[q.value] == n
  {
    assert n in Elems(f.blocks);
  }

  lemma GotoLanding(t0: Table, rank: Rank, root: BlockId, f: Flow, falls: map<BlockId, Option<BlockId>>,
                    labels: map<BlockId, nat>, n: BlockId)
    requires PassInv(t0, rank, root, f, falls, |f.blocks|) && Placed(f.blocks, f.table, rank)
    requires Labels(f.blocks, labels, |f.blocks|)
    requires n in f.table && n !in t0
    ensures var q := Landing(t0, f.blocks, f.table, rank, labels, Some(n));
      q.Some? && Meant(t0, rank, f.table, n) == Some(f.blocks[q.value])
  {
    assert BlockInv(t0, rank, f.table, falls, n);
    FinalArrival(t0, rank, root, f, falls, labels, n);
    var q := Arrival(f.blocks, f.table, labels, Some(n)).value;
    FinalGoto(t0, rank, root, f, falls, q);
    var m := Meant(t0, rank, f.table, n).value;
    assert LinNext(f.blocks, f.table, rank, q, FALL_THROUGH) == Some(m);
    BlockLanding(t0, rank, root, f, falls, labels, m);
  }

  lemma BlockLanding(t0: Table, rank: Rank, root: BlockId, f: Flow, falls: map<BlockId, Option<BlockId>>,
                     labels: map<BlockId, nat>, n: BlockId)
    requires PassInv(t0, rank, root, f, falls, |f.blocks|) && Placed(f.blocks, f.table, rank)
    requires Labels(f.blocks, labels, |f.blocks|)
    requires n in t0 && !t0[n].connector
    ensures var q := Landing(t0, f.blocks, f.table, rank, labels, Some(n)); q.Some? && f.blocks[q.value] == n
  {
    assert BlockInv(t0, rank, f.table, falls, n);
    FinalArrival(t0, rank, root, f, falls, labels, n);
  }

  lemma FinalStepsLike(t0: Table, rank: Rank, root: BlockId, f: Flow, falls: map<BlockId, Option<BlockId>>,
                       labels: map<BlockId, nat>, p: nat, d: nat)
    requires PassInv(t0, rank, root, f, falls, |f.blocks|) && Placed(f.blocks, f.table, rank)
    requires Labels(f.blocks, labels, |f.blocks|)
    requires p < |f.blocks| && f.blocks[p] in t0 && !f.table[f.blocks[p]].connector && HasCon(t0[f.blocks[p]], d)
    ensures StepsLike(t0, f.blocks, f.table, rank, labels, p, d)
  {
    FinalStep(t0, rank, root, f, falls, p, d);
    var n := LinNext(f.blocks, f.table, rank, p, d);
    if n.Some? {
      if n.value in t0 {
        BlockLanding(t0, rank, root, f, falls, labels, n.value);
      } else {
        GotoLanding(t0, rank, root, f, falls, labels, n.value);
      }
    }
  }

  /**
   * fixup_flow preserves meaning: the final list, run from the position of any
   * block of the graph, visits the graph's blocks in the graph's order, with only
   * inserted gotos in between.
   */
  lemma FixupPreservesRuns(rank: Rank, run: seq<Flow>, labels: map<BlockId, nat>, b: BlockId, ds: seq<nat>)
    requires IsRun(rank, run) && var f := run[|run| - 1];
      |run| == |f.blocks| + 1 && Labels(f.blocks, labels, |f.blocks|)
    requires b in run[0].table && !run[0].table[b].connector
    ensures var t0 := run[0].table; var f := run[|run| - 1];
      && Placed(f.blocks, f.table, rank)
      && b in labels && labels[b] < |f.blocks| && f.blocks[labels[b]] == b && !f.table[b].connector
      && Only(t0, LinRun(t0, f.blocks, f.table, rank, labels, labels[b], ds)) == CfgRun(t0, rank, b, ds)
  {
    var t0, root, f := run[0].table, run[0].blocks[0], run[|run| - 1];
    var falls := RunPass(rank, run, |f.blocks|);
    FinalPlaced(t0, rank, root, f, falls);
    BlockLanding(t0, rank, root, f, falls, labels, b);
    forall p, d | 0 <= p < |f.blocks| && 0 <= d && f.blocks[p] in t0 && !f.table[f.blocks[p]].connector &&
      HasCon(t0[f.blocks[p]], d)
      ensures StepsLike(t0, f.blocks, f.table, rank, labels, p, d)
    {
      FinalStepsLike(t0, rank, root, f, falls, labels, p, d);
    }
    SameRun(t0, f.blocks, f.table, rank, labels, labels[b], ds);
  }

  class PhaseCFG {
    var blocks: seq<BlockId>
    var table: Table
    var nextId: BlockId
    /** The `_pre_order` fields: block numbers at first, list positions once scheduled. */
    var preOrder: map<BlockId, nat>
    ghost const rank: Rank
    /** C->do_freq_based_layout() */
    const freqBased: bool
    /** Branch probabilities can be anything: blocks whose successor 1 is the likelier one ... */
    const prefersSecond: set<BlockId>
    /** ... and trap based checks whose test is (almost) never true. */
    const neverTrue: set<BlockId>

    constructor (blocks: seq<BlockId>, table: Table, nextId: BlockId, preOrder: map<BlockId, nat>, ghost rank: Rank,
                 freqBased: bool, prefersSecond: set<BlockId>, neverTrue: set<BlockId>)
      ensures Now() == Flow(blocks, table, nextId) && this.preOrder == preOrder && this.rank == rank
      ensures this.freqBased == freqBased && this.prefersSecond == prefersSecond && this.neverTrue == neverTrue
    {
      this.blocks, this.table, this.nextId, this.preOrder, this.rank := blocks, table, nextId, preOrder, rank;
      this.freqBased, this.prefersSecond, this.neverTrue := freqBased, prefersSecond, neverTrue;
    }

    ghost function Now(): Flow
      reads this
    {
      Flow(blocks, table, nextId)
    }

    /** Blocks on the list are known, and those up to i are labelled with their position. */
    ghost predicate Labelled(i: nat)
      reads this
    {
      && NoDup(blocks) && Elems(blocks) == table.Keys
      && i < |blocks|
      && Labels(blocks, preOrder, i + 1)
    }

    /** Puts a goto block between position i and its j'th successor. */
    method InsertGotoAt(i: nat, j: nat)
      requires i < |blocks| && blocks[i] in table && j < |table[blocks[i]].succs|
      modifies this`blocks, this`table, this`nextId
      ensures Now() == old(GotoInserted(Now(), i, j))
    {
      var inId := blocks[i];
      var inb := table[inId];
      var out := inb.succs[j];
      var x := nextId;
      nextId := nextId + 1;
      table := table[x := GotoTo(out.to)];
      table := table[inId := inb.(succs := inb.succs[j := Edge(out.con, x)])];
      blocks := Inserted(blocks, i, x);
    }

    /** Moves bx to the slot following position i, unless it is already scheduled or conditionally fallen into. */
    method MoveToNext(bx: BlockId, i: nat) returns (ok: bool)
      requires Labelled(i) && bx in table
      modifies this`blocks
      ensures MovedBehind(old(blocks), i, blocks)
      ensures if ok then NextOf(blocks, i) == Some(bx) else blocks == old(blocks)
      ensures ok <==> CanMove(old(blocks), table, i, bx)
    {
      if bx in preOrder && preOrder[bx] <= i && blocks[preOrder[bx]] == bx {
        return false;
      }
      assert bx in Elems(blocks);
      var k := i + 1;
      while k < |blocks| && blocks[k] != bx
        invariant i < k <= |blocks|
        invariant forall p :: 0 <= p < k ==> blocks[p] != bx
      {
        k := k + 1;
      }
      // A branch before bx would need a jump once bx is gone.
      assert blocks[k - 1] in Elems(blocks);
      var prev := table[blocks[k - 1]];
      if (exists j :: 0 <= j < |prev.succs| && prev.succs[j].to == bx) && |prev.succs| != 1 {
        return false;
      }
      blocks := Moved(blocks, i, k);
      assert MayMove(old(blocks), table, i, k, bx);
      return true;
    }

    /** One successor: drop the goto if control falls into it anyway. */
    method FixOneWay(i: nat)
      requires i < |blocks| && blocks[i] in table && Grounded(table, rank) && 1 <= |table[blocks[i]].succs|
      modifies this`table
      ensures OneWayFix(rank, old(Now()), i, Now())
    {
      var b := table[blocks[i]];
      var bs0 := Resolve(table, rank, b.succs[0].to);
      if NextOf(blocks, i) == Some(bs0) {
        table := table[blocks[i] := b.(hasGoto := false)];
      } else {
        assert table == table[blocks[i] := b];
      }
    }

    /** Neither target of an If follows position i: try to move one there, the likelier one first. */
    method PlaceSuccessor(i: nat)
      requires Labelled(i) && blocks[i] in table && Grounded(table, rank) && |table[blocks[i]].succs| == 2
      modifies this`blocks
      ensures MovedBehind(old(blocks), i, blocks) && i < |blocks| && blocks[i] == old(blocks[i])
      ensures var succs := table[old(blocks[i])].succs;
        var bs0, bs1 := Resolve(table, rank, succs[0].to), Resolve(table, rank, succs[1].to);
        var likely := if old(blocks[i]) in prefersSecond then bs1 else bs0;
        var other := if old(blocks[i]) in prefersSecond then bs0 else bs1;
        if freqBased || NextOf(old(blocks), i) == Some(bs0) || NextOf(old(blocks), i) == Some(bs1) then
          blocks == old(blocks)
        else if CanMove(old(blocks), table, i, likely) then NextOf(blocks, i) == Some(likely)
        else if CanMove(old(blocks), table, i, other) then NextOf(blocks, i) == Some(other)
        else blocks == old(blocks)
    {
      var b := table[blocks[i]];
      var bs0 := Resolve(table, rank, b.succs[0].to);
      var bs1 := Resolve(table, rank, b.succs[1].to);
      if !freqBased && NextOf(blocks, i) != Some(bs0) && NextOf(blocks, i) != Some(bs1) {
        var likely, other := bs0, bs1;
        if blocks[i] in prefersSecond {
          likely, other := bs1, bs0;
        }
        var ok := MoveToNext(likely, i);
        if !ok {
          ok := MoveToNext(other, i);
        }
      }
    }

    /** An If: branch to succs[0] and fall into succs[1], flipping, negating or adding a goto as needed. */
    method BranchAndFall(i: nat) returns (ghost nb: Block)
      requires i < |blocks| && blocks[i] in table && Grounded(table, rank)
      requires table[blocks[i]].ender == If(false) && TwoWay(table[blocks[i]].succs) && MatchedProjs(table[blocks[i]])
      modifies this`blocks, this`table, this`nextId
      ensures BranchesLike(old(table[blocks[i]]), nb)
      ensures Settled(old(table), rank, old(Flow(blocks, table[blocks[i] := nb], nextId)), i, 1, Now())
      ensures var succs := old(table[blocks[i]]).succs;
        nextId == old(nextId) <==>
        || NextOf(old(blocks), i) == Some(Resolve(old(table), rank, succs[0].to))
        || NextOf(old(blocks), i) == Some(Resolve(old(table), rank, succs[1].to))
    {
      var b := table[blocks[i]];
      var proj0, proj1 := b.projs[0], b.projs[1];
      var bnext := NextOf(blocks, i);
      var bs0 := Resolve(table, rank, b.succs[0].to);
      var bs1 := Resolve(table, rank, b.succs[1].to);
      if bnext == Some(bs0) {
        // The first successor follows: the two change places.
        b := Swapped(b);
        proj0, proj1 := proj1, proj0;
      }
      // The test is negated if the first successor is the one for false; projections are not needed any more.
      b := b.(ender := If(b.ender.negated != (proj0 == IF_FALSE)), projs := []);
      nb := b;
      table := table[blocks[i] := b];
      if bnext != Some(bs0) && bnext != Some(bs1) {
        // Neither successor follows.
        InsertGotoAt(i, 1);
      }
    }

    method FixIf(i: nat)
      requires Labelled(i) && blocks[i] in table && Grounded(table, rank)
      requires table[blocks[i]].ender == If(false) && TwoWay(table[blocks[i]].succs) && MatchedProjs(table[blocks[i]])
      modifies this`blocks, this`table, this`nextId
      ensures TwoWayFix(rank, old(Now()), i, Now())
      ensures var succs := old(table[blocks[i]]).succs;
        var bs0, bs1 := Resolve(old(table), rank, succs[0].to), Resolve(old(table), rank, succs[1].to);
        nextId == old(nextId) <==>
        || NextOf(old(blocks), i) == Some(bs0) || NextOf(old(blocks), i) == Some(bs1)
        || (!freqBased && (CanMove(old(blocks), old(table), i, bs0) || CanMove(old(blocks), old(table), i, bs1)))
    {
      PlaceSuccessor(i);
      ghost var moved := blocks;
      ghost var nb := BranchAndFall(i);
      assert TwoWayFixBy(rank, old(Now()), i, Now(), moved, nb);
    }

    /** The slot of projection 0, or past the end. */
    method FallThroughSlot(b: Block) returns (j: nat)
      requires MatchedProjs(b)
      ensures j <= |b.succs| && (j < |b.succs| ==> b.succs[j].con == FALL_THROUGH)
      ensures j == |b.succs| ==> !HasCon(b, FALL_THROUGH)
    {
      j := 0;
      while j < |b.succs| && b.projs[j] != FALL_THROUGH
        invariant j <= |b.succs| && forall l :: 0 <= l < j ==> b.succs[l].con != FALL_THROUGH
      {
        j := j + 1;
      }
    }

    /** Default handling of a no-flip branch: its fall-through is the target of projection 0. */
    method FixNoFlip(i: nat)
      requires i < |blocks| && blocks[i] in table && Grounded(table, rank)
      requires var b := table[blocks[i]]; MatchedProjs(b) && Shape(b) && (b.ender.NullCheck? || b.ender.Catch?)
      modifies this`blocks, this`table, this`nextId
      ensures if old(table[blocks[i]]).ender.NullCheck? then TwoWayFix(rank, old(Now()), i, Now())
        else TableFix(rank, old(Now()), i, Now())
    {
      var b := table[blocks[i]];
      var j := FallThroughSlot(b);
      var addGoto := j < |b.succs| && NextOf(blocks, i) != Some(Resolve(table, rank, b.succs[j].to));
      if j == 0 && |b.succs| == 2 {
        // The successor to fall into goes last.
        b := Swapped(b);
        j := 1;
      }
      // Projections are not needed any more.
      b := b.(projs := []);
      table := table[blocks[i] := b];
      if addGoto {
        InsertGotoAt(i, j);
      }
      NoFlipFixed(rank, old(Now()), i, Now(), b, j);
    }

    /** A trap based check traps on succs[0] and goes on at succs[1]. */
    method SetTrapSense(i: nat)
      requires i < |blocks| && blocks[i] in table
      requires table[blocks[i]].ender == Trap(false) && TwoWay(table[blocks[i]].succs)
      modifies this`table
      ensures blocks[i] in table && table == old(table)[blocks[i] := table[blocks[i]]]
      ensures BranchesLike(old(table[blocks[i]]), table[blocks[i]])
      ensures table[blocks[i]].succs[0].con == if blocks[i] in neverTrue then IF_TRUE else IF_FALSE
    {
      var b := table[blocks[i]];
      var edgeT := if b.succs[0].con == IF_TRUE then b.succs[0] else b.succs[1];
      var edgeF := if b.succs[0].con == IF_FALSE then b.succs[0] else b.succs[1];
      if blocks[i] in neverTrue {
        b := b.(succs := [edgeT, edgeF]);
      } else {
        b := b.(succs := [edgeF, edgeT], ender := Trap(!b.ender.negated));
      }
      table := table[blocks[i] := b.(projs := [])];
    }

    /** Moves the fall through target of position i up if possible, else reaches it by a goto. */
    method FallIntoSecond(i: nat) returns (ghost list: seq<BlockId>)
      requires Labelled(i) && blocks[i] in table && Grounded(table, rank) && |table[blocks[i]].succs| == 2
      modifies this`blocks, this`table, this`nextId
      ensures MovedBehind(old(blocks), i, list)
      ensures Settled(old(table), rank, Flow(list, old(table), old(nextId)), i, 1, Now())
      ensures i < |list| && list[i] == old(blocks[i])
      ensures var bs1 := Resolve(old(table), rank, old(table[blocks[i]]).succs[1].to);
        nextId == old(nextId) <==> NextOf(old(blocks), i) == Some(bs1) || CanMove(old(blocks), old(table), i, bs1)
    {
      var bs1 := Resolve(table, rank, table[blocks[i]].succs[1].to);
      if NextOf(blocks, i) != Some(bs1) {
        var _ := MoveToNext(bs1, i);
      }
      list := blocks;
      if NextOf(blocks, i) != Some(bs1) {
        InsertGotoAt(i, 1);
      }
    }

    /** fixup_trap_based_check */
    method FixTrap(i: nat)
      requires Labelled(i) && blocks[i] in table && Grounded(table, rank)
      requires table[blocks[i]].ender == Trap(false) && TwoWay(table[blocks[i]].succs) && !table[blocks[i]].connector
      modifies this`blocks, this`table, this`nextId
      ensures TwoWayFix(rank, old(Now()), i, Now())
    {
      SetTrapSense(i);
      ghost var nb := table[blocks[i]];
      SensedGrounded(rank, old(table), blocks[i], nb);
      ghost var list := FallIntoSecond(i);
      SensedFixed(rank, old(Now()), i, Now(), list, nb);
    }

    /** One block: connectors need no processing, the others are fixed by kind. */
    method FixBlock(i: nat)
      requires Labelled(i) && blocks[i] in table && Grounded(table, rank)
      requires !table[blocks[i]].connector ==> Fixable(table[blocks[i]])
      modifies this`blocks, this`table, this`nextId
      ensures BlockFix(rank, old(Now()), i, Now())
    {
      var b := table[blocks[i]];
      if b.connector {
      } else if b.ender.Trap? {
        FixTrap(i);
      } else if NoFlip(b) {
        FixNoFlip(i);
      } else if |b.succs| == 1 {
        FixOneWay(i);
      } else if |b.succs| == 2 {
        FixIf(i);
      } else {
        // A table of targets falls into nothing.
        var j := Slot(b.succs, FALL_THROUGH);
        assert table == table[blocks[i] := b];
        assert TableFixBy(rank, old(Now()), i, Now(), if j < |b.succs| then j else 0, b);
      }
    }

    /** Fixes up the final control flow for all blocks; the list may grow while it is walked. */
    method FixupFlow() returns (ghost run: seq<Flow>)
      requires GoodStart(Now(), rank)
      modifies this
      ensures IsRun(rank, run) && |run| == |blocks| + 1 && run[0] == old(Now()) && run[|blocks|] == Now()
      ensures Labels(blocks, preOrder, |blocks|)
    {
      run := [Now()];
      RunStarts(rank, Now());
      var i := 0;
      while i < |blocks|
        invariant i <= |blocks| && IsRunTo(run, i) && run[0] == old(Now())
        decreases run[0].table.Keys - Elems(blocks[..i]), |blocks| - i
      {
        run := FixNext(i, run);
        i := i + 1;
      }
      RunEnds(rank, run);
    }

    /** The state is the last one of run, after i iterations, and the first i positions are labelled. */
    ghost predicate IsRunTo(run: seq<Flow>, i: nat)
      reads this
    {
      |run| == i + 1 && run[i] == Now() && Runs(rank, run) && i <= |blocks| && Labels(blocks, preOrder, i)
    }

    /** The block at position i gets its label and is fixed; only a block of the graph can make the list longer. */
    method FixNext(i: nat, ghost run: seq<Flow>) returns (ghost run': seq<Flow>)
      requires i < |blocks| && IsRunTo(run, i)
      modifies this
      ensures IsRunTo(run', i + 1) && run'[0] == run[0]
      ensures old(blocks[i]) !in Elems(old(blocks[..i]))
      ensures Elems(blocks[..i + 1]) == Elems(old(blocks[..i])) + {old(blocks[i])}
      ensures old(blocks[i]) in run[0].table || |blocks| == |old(blocks)|
    {
      ghost var f := Now();
      RunFixable(rank, run, f, i);
      LabelNext(blocks, preOrder, i);
      preOrder := preOrder[blocks[i] := i]; // from here on a list position
      FixBlock(i);
      RunGoesOn(rank, run, i, f, Now(), preOrder);
      run' := run + [Now()];
    }
  }
}
