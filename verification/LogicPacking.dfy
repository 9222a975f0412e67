/**
 * Choosing cones and replacing their roots (opto/compile.cpp): a walk over a graph of
 * vector nodes that turns every small enough cone into one MacroLogicV node.
 */
module LogicPacking {
  import opened Lists
  import opened LogicCone

  // ----- Lists without duplicates -----

  function PushUnique(s: seq<NodeId>, x: NodeId): seq<NodeId> {
    if x in s then s else s + [x]
  }

  lemma PushKeepsUnique(s: seq<NodeId>, x: NodeId)
    requires NoDup(s)
    ensures NoDup(PushUnique(s, x)) && Elems(PushUnique(s, x)) == Elems(s) + {x}
  {
  }

  // ----- Cones -----

  /** What a node contributes to the inputs of a cone: its operands, the all-ones of a negation aside, or itself. */
  ghost function Leaves(g: Graph, n: NodeId): set<NodeId>
    requires n in g
  {
    match g[n]
    case And(a, b) => {a, b}
    case Or(a, b) => {a, b}
    case Xor(a, b) => if b in g && g[b].Ones? then {a} else {a, b}
    case Macro(a, b, c, _) => {a, b, c}
    case _ => {n}
  }

  lemma LeavesAreOperands(g: Graph, n: NodeId)
    requires n in g && IsBitwise(g[n])
    ensures Leaves(g, n) == Elems(Operands(g, n))
  {
  }

  /** collect_unique_inputs */
  method CollectUniqueInputs(g: Graph, n: NodeId, partition: seq<NodeId>, inputs: seq<NodeId>)
    returns (partition': seq<NodeId>, inputs': seq<NodeId>, cnt: nat)
    requires n in g && NoDup(inputs) && Closed(g) && Canonical(g)
    ensures NoDup(inputs') && Elems(inputs') == Elems(inputs) + Leaves(g, n)
    ensures |inputs'| == |inputs| + cnt
    ensures partition' == Gathered(g, n, partition)
  {
    partition', inputs' := partition, inputs;
    if !IsBitwise(g[n]) {
      PushKeepsUnique(inputs, n);
      inputs' := PushUnique(inputs, n);
    } else {
      var ins := Ins(g[n]);
      ghost var seen: set<NodeId> := {};
      for i := 0 to |ins|
        invariant NoDup(inputs') && |inputs| <= |inputs'|
        invariant Elems(inputs') == Elems(inputs) + seen
        invariant seen == set j | 0 <= j < i && !(IsNot(g, n) && g[ins[j]].Ones?) :: ins[j]
      {
        assert ClosedAt(g, n);
        if !(IsNot(g, n) && g[ins[i]].Ones?) {
          PushKeepsUnique(inputs', ins[i]);
          inputs' := PushUnique(inputs', ins[i]);
          seen := seen + {ins[i]};
        }
      }
      LeavesAre(g, n);
      partition' := PushUnique(partition, n);
    }
    cnt := |inputs'| - |inputs|;
  }

  ghost predicate ClosedAt(g: Graph, n: NodeId)
    requires n in g
  {
    forall i :: 0 <= i < |Ins(g[n])| ==> Ins(g[n])[i] in g
  }

  ghost predicate Closed(g: Graph) {
    forall n :: n in g ==> ClosedAt(g, n)
  }

  /** Skipping the all-ones inputs of a negation leaves exactly its operand. */
  lemma LeavesAre(g: Graph, n: NodeId)
    requires n in g && Closed(g) && Canonical(g) && IsBitwise(g[n])
    ensures ClosedAt(g, n)
    ensures Leaves(g, n) == set j | 0 <= j < |Ins(g[n])| && !(IsNot(g, n) && g[Ins(g[n])[j]].Ones?) :: Ins(g[n])[j]
  {
    assert ClosedAt(g, n);
    LeavesAreOperands(g, n);
    if IsNot(g, n) {
      assert Ins(g[n])[0] == g[n].a && Ins(g[n])[1] == g[n].b;
    }
  }

  ghost predicate FewInputs(s: set<NodeId>) {
    2 <= |s| <= 3
  }

  /** The cones that are packed. */
  ghost predicate Packable(g: Graph, n: NodeId)
    requires n in g && Closed(g)
  {
    && (g[n].And? || g[n].Or? || (g[n].Xor? && !(g[n].b in g && g[g[n].b].Ones?)))
    && var in1, in2 := g[n].a, g[n].b;
    assert ClosedAt(g, n) && in1 == Ins(g[n])[0] && in2 == Ins(g[n])[1];
    var l1, l2 := Leaves(g, in1), Leaves(g, in2);
    if |l1 + l2| <= 3 then
      |l1 + l2| >= 2 && (IsBitwise(g[in1]) || IsBitwise(g[in2]))
    else if |l1| < |l2| then
      |l1| < 3 && IsBitwise(g[in1]) && FewInputs(l1 + {in2})
    else
      |l2| < 3 && IsBitwise(g[in2]) && FewInputs(l2 + {in1})
  }

  lemma OrderedIsClosed(g: Graph, rank: Rank)
    requires Ordered(g, rank)
    ensures Closed(g)
  {
    forall n | n in g ensures ClosedAt(g, n) {
      assert InsBelow(g, rank, n);
    }
  }

  ghost predicate InputsBelow(rank: Rank, inputs: seq<NodeId>, n: NodeId) {
    n in rank && forall i :: 0 <= i < |inputs| ==> inputs[i] in rank && rank[inputs[i]] < rank[n]
  }

  /** x is an input of some bitwise node. */
  ghost predicate Feeds(g: Graph, x: NodeId) {
    exists k :: k in g && IsBitwise(g[k]) && x in Ins(g[k])
  }

  /** What packing needs to know about the chosen cone of n. */
  ghost predicate ConeOf(g: Graph, rank: Rank, n: NodeId, partition: seq<NodeId>, inputs: seq<NodeId>) {
    && Cone(g, inputs, partition)
    && |partition| > 0 && partition[|partition| - 1] == n
    && 2 <= |inputs| <= 3 && InputsBelow(rank, inputs, n)
    && (forall i :: 0 <= i < |inputs| ==> Feeds(g, inputs[i]))
  }

  ghost predicate Covered(g: Graph, inputs: seq<NodeId>, p: NodeId) {
    p in g && IsBitwise(g[p]) && Leaves(g, p) <= Elems(inputs)
  }

  lemma ConeFromChildren(g: Graph, n: NodeId, children: seq<NodeId>, inputs: seq<NodeId>)
    requires n in g && IsBitwise(g[n]) && !IsNot(g, n) && |inputs| <= 3
    requires forall i :: 0 <= i < |inputs| ==> inputs[i] in g
    requires forall i :: 0 <= i < |children| ==> Covered(g, inputs, children[i])
    requires forall i :: 0 <= i < |Ins(g[n])| ==> Ins(g[n])[i] in inputs || Ins(g[n])[i] in children
    ensures Cone(g, inputs, children + [n])
  {
    var partition := children + [n];
    forall i | 0 <= i < |partition| ensures Evaluable(g, inputs, partition[..i], partition[i]) {
      if i < |children| {
        assert Covered(g, inputs, children[i]);
        forall j | 0 <= j < |Operands(g, partition[i])| ensures Operands(g, partition[i])[j] in inputs {
          assert Operands(g, partition[i])[j] in Leaves(g, partition[i]);
          assert Operands(g, partition[i])[j] in Elems(inputs);
        }
      } else {
        assert partition[..i] == children;
      }
    }
  }

  /** The leaves of an input of n come before n. */
  lemma LeavesBelow(g: Graph, rank: Rank, n: NodeId, i: nat, x: NodeId)
    requires Ordered(g, rank) && n in g && i < |Ins(g[n])| && Ins(g[n])[i] in g
    requires x in Leaves(g, Ins(g[n])[i])
    ensures x in g && x in rank && rank[x] < rank[n]
    ensures IsBitwise(g[n]) ==> Feeds(g, x)
  {
    var y := Ins(g[n])[i];
    assert InsBelow(g, rank, n);
    if IsBitwise(g[y]) {
      assert InsBelow(g, rank, y);
      LeavesAreOperands(g, y);
      var j :| 0 <= j < |Operands(g, y)| && Operands(g, y)[j] == x;
      assert Ins(g[y])[j] == x;
    }
  }

  ghost predicate BinaryOf(g: Graph, rank: Rank, n: NodeId, in1: NodeId, in2: NodeId) {
    && Ordered(g, rank) && Closed(g) && Canonical(g)
    && n in g && in1 in g && in2 in g
    && IsBitwise(g[n]) && !IsNot(g, n)
    && |Ins(g[n])| == 2
    && (Ins(g[n]) == [in1, in2] || Ins(g[n]) == [in2, in1])
  }

  lemma Below(g: Graph, rank: Rank, n: NodeId, in1: NodeId, in2: NodeId, inputs: seq<NodeId>)
    requires BinaryOf(g, rank, n, in1, in2)
    requires Elems(inputs) <= Leaves(g, in1) + Leaves(g, in2) + {in1, in2}
    ensures InputsBelow(rank, inputs, n) && forall i :: 0 <= i < |inputs| ==> inputs[i] in g && Feeds(g, inputs[i])
    ensures n != in1 && n != in2
  {
    assert InsBelow(g, rank, n);
    var k: nat := if Ins(g[n])[0] == in1 then 0 else 1;
    assert Ins(g[n])[k] == in1 && Ins(g[n])[1 - k] == in2;
    forall i | 0 <= i < |inputs|
      ensures inputs[i] in g && Feeds(g, inputs[i]) && inputs[i] in rank && rank[inputs[i]] < rank[n]
    {
      var x := inputs[i];
      assert x in Elems(inputs);
      if x in Leaves(g, in1) {
        LeavesBelow(g, rank, n, k, x);
      } else if x in Leaves(g, in2) {
        LeavesBelow(g, rank, n, 1 - k, x);
      }
    }
  }

  function Gathered(g: Graph, n: NodeId, partition: seq<NodeId>): seq<NodeId>
    requires n in g
  {
    if IsBitwise(g[n]) then PushUnique(partition, n) else partition
  }

  lemma BothCovered(g: Graph, n: NodeId, in1: NodeId, in2: NodeId, inputs: seq<NodeId>)
    requires n in g && in1 in g && in2 in g && n != in1 && n != in2
    requires Leaves(g, in1) + Leaves(g, in2) <= Elems(inputs)
    ensures var children := Gathered(g, in2, Gathered(g, in1, []));
            && n !in children
            && (forall i :: 0 <= i < |children| ==> Covered(g, inputs, children[i]))
            && (in1 in inputs || in1 in children) && (in2 in inputs || in2 in children)
            && (|children| in {1, 2} <==> IsBitwise(g[in1]) || IsBitwise(g[in2])) && |children| <= 2
  {
    assert !IsBitwise(g[in1]) ==> in1 in Leaves(g, in1);
    assert !IsBitwise(g[in2]) ==> in2 in Leaves(g, in2);
  }

  lemma BothCone(g: Graph, rank: Rank, n: NodeId, in1: NodeId, in2: NodeId, inputs: seq<NodeId>)
    requires BinaryOf(g, rank, n, in1, in2) && Elems(inputs) == Leaves(g, in1) + Leaves(g, in2)
    ensures var children := Gathered(g, in2, Gathered(g, in1, []));
      && n !in children && |children| <= 2 && (|children| > 0 <==> IsBitwise(g[in1]) || IsBitwise(g[in2]))
      && (2 <= |inputs| <= 3 ==> ConeOf(g, rank, n, children + [n], inputs))
  {
    Below(g, rank, n, in1, in2, inputs);
    BothCovered(g, n, in1, in2, inputs);
    if 2 <= |inputs| <= 3 {
      ConeFromChildren(g, n, Gathered(g, in2, Gathered(g, in1, [])), inputs);
    }
  }

  lemma ChildCone(g: Graph, rank: Rank, n: NodeId, child: NodeId, other: NodeId, inputs: seq<NodeId>)
    requires BinaryOf(g, rank, n, child, other) && Elems(inputs) == Leaves(g, child) + {other}
    ensures var children := Gathered(g, child, []);
      && n !in children && |children| <= 1 && (|children| > 0 <==> IsBitwise(g[child]))
      && (2 <= |inputs| <= 3 ==> ConeOf(g, rank, n, children + [n], inputs))
  {
    Below(g, rank, n, child, other, inputs);
    ChildCovered(g, n, child, other, inputs);
    if 2 <= |inputs| <= 3 {
      ConeFromChildren(g, n, Gathered(g, child, []), inputs);
    }
  }

  lemma ChildCovered(g: Graph, n: NodeId, child: NodeId, other: NodeId, inputs: seq<NodeId>)
    requires n in g && child in g && n != child
    requires Leaves(g, child) + {other} <= Elems(inputs)
    ensures var children := Gathered(g, child, []);
            && n !in children
            && (forall i :: 0 <= i < |children| ==> Covered(g, inputs, children[i]))
            && (child in inputs || child in children) && other in inputs
            && |children| == if IsBitwise(g[child]) then 1 else 0
  {
    assert other in Elems(inputs);
    assert !IsBitwise(g[child]) ==> child in Leaves(g, child);
  }

  /** The cone of n, both of its inputs and their leaves. */
  method GatherBoth(g: Graph, ghost rank: Rank, n: NodeId, in1: NodeId, in2: NodeId)
    returns (partition: seq<NodeId>, inputs: seq<NodeId>, cnt1: nat)
    requires BinaryOf(g, rank, n, in1, in2)
    ensures cnt1 == |Leaves(g, in1)|
    ensures |inputs| == |Leaves(g, in1) + Leaves(g, in2)|
    ensures 2 <= |partition| <= 3 <==> IsBitwise(g[in1]) || IsBitwise(g[in2])
    ensures 2 <= |inputs| <= 3 ==> ConeOf(g, rank, n, partition, inputs)
  {
    partition, inputs, cnt1 := CollectUniqueInputs(g, in1, [], []);
    UniqueCount(inputs);
    assert Elems(inputs) == Leaves(g, in1);
    var cnt2;
    partition, inputs, cnt2 := CollectUniqueInputs(g, in2, partition, inputs);
    UniqueCount(inputs);
    BothCone(g, rank, n, in1, in2, inputs);
    partition := PushUnique(partition, n);
  }

  /** The retry: only one child is merged, the other input of n stays an input of the cone. */
  method GatherChild(g: Graph, ghost rank: Rank, n: NodeId, child: NodeId, other: NodeId)
    returns (partition: seq<NodeId>, inputs: seq<NodeId>)
    requires BinaryOf(g, rank, n, child, other) && |Leaves(g, child)| < 3
    ensures |inputs| == |Leaves(g, child) + {other}|
    ensures 2 <= |partition| <= 3 <==> IsBitwise(g[child])
    ensures 2 <= |inputs| <= 3 ==> ConeOf(g, rank, n, partition, inputs)
  {
    var cnt;
    partition, inputs, cnt := CollectUniqueInputs(g, child, [], []);
    PushKeepsUnique(inputs, other);
    inputs := PushUnique(inputs, other);
    UniqueCount(inputs);
    assert Elems(inputs) == Leaves(g, child) + {other};
    ChildCone(g, rank, n, child, other, inputs);
    partition := PushUnique(partition, n);
  }

  /** compute_logic_cone */
  method ComputeLogicCone(g: Graph, ghost rank: Rank, n: NodeId)
    returns (ok: bool, partition: seq<NodeId>, inputs: seq<NodeId>)
    requires Ordered(g, rank) && Closed(g) && Canonical(g) && n in g && IsBitwise(g[n])
    ensures ok <==> Packable(g, n)
    ensures ok ==> ConeOf(g, rank, n, partition, inputs)
  {
    ok, partition, inputs := false, [], [];
    if g[n].Macro? || IsNot(g, n) {
      return;
    }
    var in1, in2 := g[n].a, g[n].b;
    assert ClosedAt(g, n) && in1 == Ins(g[n])[0] && in2 == Ins(g[n])[1];
    var cnt1;
    partition, inputs, cnt1 := GatherBoth(g, rank, n, in1, in2);
    if |inputs| > 3 {
      var p2, s2, cnt2 := CollectUniqueInputs(g, in2, [], []);
      UniqueCount(s2);
      assert Elems(s2) == Leaves(g, in2);
      if cnt1 >= 3 && cnt2 >= 3 {
        return;
      }
      if cnt1 < cnt2 {
        partition, inputs := GatherChild(g, rank, n, in1, in2);
      } else {
        partition, inputs := GatherChild(g, rank, n, in2, in1);
      }
    }
    ok := 2 <= |partition| <= 3 && 2 <= |inputs| <= 3;
  }
}
