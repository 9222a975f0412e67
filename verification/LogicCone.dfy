/**
 * Packing of bitwise vector operations (opto/compile.cpp): cones of And, Or, Xor and
 * Not nodes with two or three inputs become one MacroLogicV node whose function is
 * an eight-row truth table.
 */
module LogicCone {
  type NodeId = nat
  type Vector = seq<bool>
  type Table = bv8

  datatype Node =
    | Ones                                  // replicated -1
    | Opaque(op: int, ins: seq<NodeId>)     // any other operation, or a parameter
    | And(a: NodeId, b: NodeId)
    | Or(a: NodeId, b: NodeId)
    | Xor(a: NodeId, b: NodeId)
    | Macro(a: NodeId, b: NodeId, c: NodeId, func: Table)

  type Graph = map<NodeId, Node>
  type Rank = map<NodeId, nat>

  function Ins(n: Node): seq<NodeId> {
    match n
    case Ones => []
    case Opaque(_, ins) => ins
    case And(a, b) => [a, b]
    case Or(a, b) => [a, b]
    case Xor(a, b) => [a, b]
    case Macro(a, b, c, _) => [a, b, c]
  }

  /** rank orders the graph: inputs come before their users. */
  ghost predicate Ordered(g: Graph, rank: Rank) {
    g.Keys <= rank.Keys && forall n :: n in g ==> InsBelow(g, rank, n)
  }

  ghost predicate InsBelow(g: Graph, rank: Rank, n: NodeId)
    requires n in g && g.Keys <= rank.Keys
  {
    forall i :: 0 <= i < |Ins(g[n])| ==> Ins(g[n])[i] in g && rank[Ins(g[n])[i]] < rank[n]
  }

  /** A negation is written Xor(x, ones), with x not itself all ones. */
  ghost predicate Canonical(g: Graph) {
    forall n :: n in g && g[n].Xor? && g[n].a in g ==> !g[g[n].a].Ones?
  }

  predicate IsNot(g: Graph, n: NodeId)
    requires n in g
  {
    g[n].Xor? && g[n].b in g && g[g[n].b].Ones?
  }

  predicate IsBitwise(n: Node): (r: bool)
    ensures !r <==> n.Ones? || n.Opaque?
  {
    n.And? || n.Or? || n.Xor? || n.Macro?
  }

  // ----- Meaning -----

  /** What the operations outside the cones compute; width is the number of bits of all vectors. */
  datatype Outside = Outside(width: nat, eval: (int, seq<Vector>) -> Vector)

  function Row(b1: bool, b2: bool, b3: bool): (r: bv8)
    ensures r < 8
  {
    (if b1 then 4 else 0) + (if b2 then 2 else 0) + (if b3 then 1 else 0)
  }

  /** extract_bit */
  predicate Bit(f: Table, pos: bv8)
    requires pos < 8
  {
    (f & (1 << pos)) != 0
  }

  ghost function Fit(w: nat, v: Vector): (r: Vector)
    ensures |r| == w
  {
    if |v| == w then v else seq(w, _ => false)
  }

  ghost function Value(g: Graph, rank: Rank, o: Outside, n: NodeId): (v: Vector)
    requires Ordered(g, rank) && n in g
    ensures |v| == o.width
    decreases rank[n]
  {
    assert InsBelow(g, rank, n);
    match g[n]
    case Ones => seq(o.width, _ => true)
    case Opaque(op, ins) =>
      Fit(o.width, o.eval(op, seq(|ins|, i requires 0 <= i < |ins| => assert Ins(g[n])[i] in g &&
        rank[Ins(g[n])[i]] < rank[n]; Value(g, rank, o, ins[i]))))
    case And(a, b) =>
      assert a == Ins(g[n])[0] && b == Ins(g[n])[1];
      var x, y := Value(g, rank, o, a), Value(g, rank, o, b);
      seq(o.width, l requires 0 <= l < o.width => x[l] && y[l])
    case Or(a, b) =>
      assert a == Ins(g[n])[0] && b == Ins(g[n])[1];
      var x, y := Value(g, rank, o, a), Value(g, rank, o, b);
      seq(o.width, l requires 0 <= l < o.width => x[l] || y[l])
    case Xor(a, b) =>
      assert a == Ins(g[n])[0] && b == Ins(g[n])[1];
      var x, y := Value(g, rank, o, a), Value(g, rank, o, b);
      seq(o.width, l requires 0 <= l < o.width => x[l] != y[l])
    case Macro(a, b, c, func) =>
      assert a == Ins(g[n])[0] && b == Ins(g[n])[1] && c == Ins(g[n])[2];
      var x, y, z := Value(g, rank, o, a), Value(g, rank, o, b), Value(g, rank, o, c);
      seq(o.width, l requires 0 <= l < o.width => Bit(func, Row(x[l], y[l], z[l])))
  }

  // ----- Truth tables -----

  lemma BitOr(f: Table, h: Table, r: bv8)
    requires r < 8
    ensures Bit(f | h, r) == (Bit(f, r) || Bit(h, r))
  {
  }

  lemma BitAnd(f: Table, h: Table, r: bv8)
    requires r < 8
    ensures Bit(f & h, r) == (Bit(f, r) && Bit(h, r))
  {
  }

  lemma BitXor(f: Table, h: Table, r: bv8)
    requires r < 8
    ensures Bit(f ^ h, r) == (Bit(f, r) != Bit(h, r))
  {
  }

  lemma BitNot(f: Table, r: bv8)
    requires r < 8
    ensures Bit(!f, r) == !Bit(f, r)
  {
  }

  lemma SetBit(f: Table, i: bv8, j: bv8)
    requires i < 8 && j < 8
    ensures Bit(f | (1 << i), j) == (Bit(f, j) || i == j)
  {
  }

  /** eval_macro_logic_op: row by row, look up the function at the bits of the three operands. */
  method EvalMacroLogicOp(func: Table, in1: Table, in2: Table, in3: Table) returns (res: Table)
    ensures forall r: bv8 :: r < 8 ==> Bit(res, r) == Bit(func, Row(Bit(in1, r), Bit(in2, r), Bit(in3, r)))
  {
    res := 0;
    var i: bv8 := 0;
    while i < 8
      invariant i <= 8
      invariant forall r: bv8 :: r < i ==> Bit(res, r) == Bit(func, Row(Bit(in1, r), Bit(in2, r), Bit(in3, r)))
      invariant forall r: bv8 :: i <= r < 8 ==> !Bit(res, r)
      decreases 8 - i
    {
      ghost var before := res;
      if Bit(func, Row(Bit(in1, i), Bit(in2, i), Bit(in3, i))) {
        res := res | (1 << i);
      }
      forall r: bv8 | r < 8 && r != i ensures Bit(res, r) == Bit(before, r) {
        SetBit(before, i, r);
      }
      SetBit(before, i, i);
      i := i + 1;
    }
  }

  /** The columns of the three inputs: (_, _, a) -> a, (_, b, _) -> b, (c, _, _) -> c. */
  const INPUT_FUNCS: seq<Table> := [0xAA, 0xCC, 0xF0]

  lemma InputColumns(b1: bool, b2: bool, b3: bool)
    ensures Bit(0xAA, Row(b1, b2, b3)) == b3
    ensures Bit(0xCC, Row(b1, b2, b3)) == b2
    ensures Bit(0xF0, Row(b1, b2, b3)) == b1
  {
  }

  /** Row r has, in its columns, the bits that the inputs have in lane l. */
  ghost predicate RowOf(g: Graph, rank: Rank, o: Outside, inputs: seq<NodeId>, l: nat, r: bv8)
    requires Ordered(g, rank) && l < o.width && |inputs| <= 3
  {
    && r < 8
    && forall i :: 0 <= i < |inputs| ==> inputs[i] in g && Bit(INPUT_FUNCS[i], r) == Value(g, rank, o, inputs[i])[l]
  }

  /** In every lane, row by row, f is the value of node n as a function of the inputs. */
  ghost predicate Tabulates(g: Graph, rank: Rank, inputs: seq<NodeId>, f: Table, n: NodeId)
    requires Ordered(g, rank) && |inputs| <= 3
  {
    n in g && forall o: Outside, l: nat, r: bv8 :: l < o.width && RowOf(g, rank, o, inputs, l, r) ==>
      Bit(f, r) == Value(g, rank, o, n)[l]
  }

  /** The operands of n that eval_operands looks up. */
  function Operands(g: Graph, n: NodeId): seq<NodeId>
    requires n in g
  {
    if IsNot(g, n) then [g[n].a] else Ins(g[n])
  }

  /** n is bitwise, and each of its operands is an input or comes earlier in the partition. */
  ghost predicate Evaluable(g: Graph, inputs: seq<NodeId>, earlier: seq<NodeId>, n: NodeId) {
    n in g && IsBitwise(g[n]) && forall i :: 0 <= i < |Operands(g, n)| ==>
      Operands(g, n)[i] in inputs || Operands(g, n)[i] in earlier
  }

  ghost predicate Cone(g: Graph, inputs: seq<NodeId>, partition: seq<NodeId>) {
    && |inputs| <= 3
    && (forall i :: 0 <= i < |inputs| ==> inputs[i] in g)
    && (forall i :: 0 <= i < |partition| ==> Evaluable(g, inputs, partition[..i], partition[i]))
  }

  type EvalMap = map<NodeId, Table>

  ghost predicate AllTabulated(g: Graph, rank: Rank, inputs: seq<NodeId>, eval: EvalMap)
    requires Ordered(g, rank) && |inputs| <= 3
  {
    forall n :: n in eval ==> Tabulates(g, rank, inputs, eval[n], n)
  }

  lemma InputTabulated(g: Graph, rank: Rank, inputs: seq<NodeId>, i: nat)
    requires Ordered(g, rank) && i < |inputs| <= 3 && inputs[i] in g
    ensures Tabulates(g, rank, inputs, INPUT_FUNCS[i], inputs[i])
  {
  }

  lemma TabulatesNot(g: Graph, rank: Rank, inputs: seq<NodeId>, n: NodeId, f: Table)
    requires Ordered(g, rank) && |inputs| <= 3 && n in g && IsNot(g, n)
    requires Tabulates(g, rank, inputs, f, g[n].a)
    ensures Tabulates(g, rank, inputs, !f, n)
  {
    forall o: Outside, l: nat, r: bv8 | l < o.width && RowOf(g, rank, o, inputs, l, r)
      ensures Bit(!f, r) == Value(g, rank, o, n)[l]
    {
      assert InsBelow(g, rank, n);
      BitNot(f, r);
    }
  }

  lemma TabulatesOr(g: Graph, rank: Rank, inputs: seq<NodeId>, n: NodeId, f: Table, h: Table)
    requires Ordered(g, rank) && |inputs| <= 3 && n in g && g[n].Or?
    requires Tabulates(g, rank, inputs, f, g[n].a) && Tabulates(g, rank, inputs, h, g[n].b)
    ensures Tabulates(g, rank, inputs, f | h, n)
  {
    forall o: Outside, l: nat, r: bv8 | l < o.width && RowOf(g, rank, o, inputs, l, r)
      ensures Bit(f | h, r) == Value(g, rank, o, n)[l]
    {
      BitOr(f, h, r);
    }
  }

  lemma TabulatesAnd(g: Graph, rank: Rank, inputs: seq<NodeId>, n: NodeId, f: Table, h: Table)
    requires Ordered(g, rank) && |inputs| <= 3 && n in g && g[n].And?
    requires Tabulates(g, rank, inputs, f, g[n].a) && Tabulates(g, rank, inputs, h, g[n].b)
    ensures Tabulates(g, rank, inputs, f & h, n)
  {
    forall o: Outside, l: nat, r: bv8 | l < o.width && RowOf(g, rank, o, inputs, l, r)
      ensures Bit(f & h, r) == Value(g, rank, o, n)[l]
    {
      BitAnd(f, h, r);
    }
  }

  lemma TabulatesXor(g: Graph, rank: Rank, inputs: seq<NodeId>, n: NodeId, f: Table, h: Table)
    requires Ordered(g, rank) && |inputs| <= 3 && n in g && g[n].Xor?
    requires Tabulates(g, rank, inputs, f, g[n].a) && Tabulates(g, rank, inputs, h, g[n].b)
    ensures Tabulates(g, rank, inputs, f ^ h, n)
  {
    forall o: Outside, l: nat, r: bv8 | l < o.width && RowOf(g, rank, o, inputs, l, r)
      ensures Bit(f ^ h, r) == Value(g, rank, o, n)[l]
    {
      BitXor(f, h, r);
    }
  }

  lemma TabulatesMacro(g: Graph, rank: Rank, inputs: seq<NodeId>, n: NodeId, f1: Table, f2: Table, f3: Table,
                       res: Table)
    requires Ordered(g, rank) && |inputs| <= 3 && n in g && g[n].Macro?
    requires Tabulates(g, rank, inputs, f1, g[n].a) && Tabulates(g, rank, inputs, f2, g[n].b)
    requires Tabulates(g, rank, inputs, f3, g[n].c)
    requires forall r: bv8 :: r < 8 ==> Bit(res, r) == Bit(g[n].func, Row(Bit(f1, r), Bit(f2, r), Bit(f3, r)))
    ensures Tabulates(g, rank, inputs, res, n)
  {
  }

  /** One node of the partition, evaluated on the tables of its operands. */
  method EvalNode(g: Graph, ghost rank: Rank, ghost inputs: seq<NodeId>, n: NodeId, eval: EvalMap) returns (res: Table)
    requires Ordered(g, rank) && |inputs| <= 3 && n in g && IsBitwise(g[n])
    requires AllTabulated(g, rank, inputs, eval)
    requires forall i :: 0 <= i < |Operands(g, n)| ==> Operands(g, n)[i] in eval
    ensures Tabulates(g, rank, inputs, res, n)
  {
    var node := g[n];
    assert Operands(g, n)[0] == node.a;
    var func1 := eval[node.a];
    if IsNot(g, n) {
      res := !func1;
      TabulatesNot(g, rank, inputs, n, func1);
      return;
    }
    assert Operands(g, n)[1] == node.b;
    var func2 := eval[node.b];
    match node
    case Or(_, _) =>
      res := func1 | func2;
      TabulatesOr(g, rank, inputs, n, func1, func2);
    case And(_, _) =>
      res := func1 & func2;
      TabulatesAnd(g, rank, inputs, n, func1, func2);
    case Xor(_, _) =>
      res := func1 ^ func2;
      TabulatesXor(g, rank, inputs, n, func1, func2);
    case Macro(_, _, c, func) =>
      assert Operands(g, n)[2] == c;
      var func3 := eval[c];
      res := EvalMacroLogicOp(func, func1, func2, func3);
      TabulatesMacro(g, rank, inputs, n, func1, func2, func3, res);
  }

  /** compute_truth_table */
  method ComputeTruthTable(g: Graph, ghost rank: Rank, partition: seq<NodeId>, inputs: seq<NodeId>) returns (res: Table)
    requires Ordered(g, rank) && Cone(g, inputs, partition) && |partition| > 0
    ensures Tabulates(g, rank, inputs, res, partition[|partition| - 1])
  {
    res := 0;
    var eval: EvalMap := map[];
    for i := 0 to |inputs|
      invariant AllTabulated(g, rank, inputs, eval)
      invariant forall j :: 0 <= j < i ==> inputs[j] in eval
    {
      InputTabulated(g, rank, inputs, i);
      eval := eval[inputs[i] := INPUT_FUNCS[i]];
    }
    for i := 0 to |partition|
      invariant AllTabulated(g, rank, inputs, eval)
      invariant forall j :: 0 <= j < |inputs| ==> inputs[j] in eval
      invariant forall j :: 0 <= j < i ==> partition[j] in eval
      invariant i > 0 ==> Tabulates(g, rank, inputs, res, partition[i - 1])
    {
      var n := partition[i];
      assert Evaluable(g, inputs, partition[..i], n);
      res := EvalNode(g, rank, inputs, n, eval);
      eval := eval[n := res];
    }
  }
}
