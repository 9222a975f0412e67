/**
 * Reaching definitions and callee-saved values, node by node (opto/buildOopMap.cpp,
 * OopFlow::compute_reach), and what they say about the nodes that were executed.
 */
module ReachingDefs {
  type NodeId = nat

  /** Register numbers; BAD is a legal index of the padded arrays. */
  type Reg = int
  const BAD: Reg := -1

  /** _defs and _callees; a register without an entry has no definition, or holds no callee-saved value. */
  datatype Reach = Reach(defs: map<Reg, NodeId>, callees: map<Reg, Reg>)

  const NOTHING: Reach := Reach(map[], map[])

  datatype Kind =
    | Copy(oldFirst: Reg, oldSecond: Reg)
    | Phi
    | StartProj(saveFirst: bool, saveSecond: bool)   // save-on-entry registers
    | Other

  /** A node with its registers; safepoint: it needs an oop map. */
  datatype FlowNode = FlowNode(id: NodeId, first: Reg, second: Reg, kind: Kind, safepoint: bool)

  function CalleeOf(r: Reach, reg: Reg): Reg {
    if reg in r.callees then r.callees[reg] else BAD
  }

  function WithDefs(r: Reach, n: FlowNode): Reach {
    r.(defs := r.defs[n.first := n.id][n.second := n.id])
  }

  function WithCallees(r: Reach, first: Reg, a: Reg, second: Reg, b: Reg): Reach {
    r.(callees := r.callees[first := a][second := b])
  }

  /** The reaching definitions behind node n. */
  function After(r: Reach, n: FlowNode): Reach {
    var d := WithDefs(r, n);
    match n.kind
    case Copy(oldFirst, oldSecond) =>
      var moved := WithCallees(d, oldFirst, BAD, oldSecond, BAD);
      WithCallees(moved, n.first, CalleeOf(r, oldFirst), n.second, CalleeOf(r, oldSecond))
    case Phi => d
    case StartProj(saveFirst, saveSecond) =>
      var none := WithCallees(d, n.first, BAD, n.second, BAD);
      var one := if saveFirst then none.(callees := none.callees[n.first := n.first]) else none;
      if saveSecond then one.(callees := one.callees[n.second := n.second]) else one
    case Other => WithCallees(d, n.first, BAD, n.second, BAD)
  }

  function AfterAll(r: Reach, nodes: seq<FlowNode>): Reach {
    if nodes == [] then r else After(AfterAll(r, nodes[..|nodes| - 1]), nodes[|nodes| - 1])
  }

  lemma {:induction false} AfterBoth(r: Reach, a: seq<FlowNode>, b: seq<FlowNode>)
    ensures AfterAll(r, a + b) == AfterAll(AfterAll(r, a), b)
    decreases |b|
  {
    if b == [] {
      assert a + b == a;
    } else {
      AfterBoth(r, a, b[..|b| - 1]);
      assert (a + b)[..|a + b| - 1] == a + b[..|b| - 1];
    }
  }

  // ----- Definitions -----

  ghost predicate Defines(n: FlowNode, r: Reg) {
    n.first == r || n.second == r
  }

  /** Node i is the last one to define r. */
  ghost predicate LastDef(nodes: seq<FlowNode>, i: nat, r: Reg) {
    i < |nodes| && Defines(nodes[i], r) && forall j :: i < j < |nodes| ==> !Defines(nodes[j], r)
  }

  /** r has the definition made by node i, or none. */
  ghost predicate HasDef(defs: map<Reg, NodeId>, nodes: seq<FlowNode>, r: Reg) {
    && (r in defs <==> exists i: nat :: LastDef(nodes, i, r))
    && forall i: nat :: LastDef(nodes, i, r) ==> r in defs && defs[r] == nodes[i].id
  }

  lemma HasDefNext(defs: map<Reg, NodeId>, nodes: seq<FlowNode>, r: Reg)
    requires nodes != [] && HasDef(defs, nodes[..|nodes| - 1], r)
    ensures var n := nodes[|nodes| - 1]; HasDef(defs[n.first := n.id][n.second := n.id], nodes, r)
  {
    var front, last := nodes[..|nodes| - 1], |nodes| - 1;
    forall i: nat ensures LastDef(nodes, i, r) <==> LastDefNext(nodes, i, r) {
      LastDefUnfolds(nodes, i, r);
    }
    if Defines(nodes[last], r) {
      assert LastDefNext(nodes, last, r);
    } else if r in defs {
      var i: nat :| LastDef(front, i, r);
      assert LastDefNext(nodes, i, r);
    }
  }

  lemma AfterDefs(r: Reach, n: FlowNode)
    ensures After(r, n).defs == r.defs[n.first := n.id][n.second := n.id]
  {
  }

  /** Each register has the definition that was made last. */
  lemma {:induction false} DefsMean(nodes: seq<FlowNode>, r: Reg)
    ensures HasDef(AfterAll(NOTHING, nodes).defs, nodes, r)
    decreases |nodes|
  {
    if nodes != [] {
      DefsMean(nodes[..|nodes| - 1], r);
      HasDefNext(AfterAll(NOTHING, nodes[..|nodes| - 1]).defs, nodes, r);
      AfterDefs(AfterAll(NOTHING, nodes[..|nodes| - 1]), nodes[|nodes| - 1]);
    }
  }

  /** The last node, if it defines r, or else the last one before it that does. */
  ghost predicate LastDefNext(nodes: seq<FlowNode>, i: nat, r: Reg)
    requires nodes != []
  {
    if Defines(nodes[|nodes| - 1], r) then i == |nodes| - 1 else LastDef(nodes[..|nodes| - 1], i, r)
  }

  lemma LastDefUnfolds(nodes: seq<FlowNode>, i: nat, r: Reg)
    requires nodes != []
    ensures LastDef(nodes, i, r) <==> LastDefNext(nodes, i, r)
  {
    var front, last := nodes[..|nodes| - 1], |nodes| - 1;
    if i < last && LastDef(nodes, i, r) {
      assert !Defines(nodes[last], r);
    }
    if LastDef(front, i, r) && !Defines(nodes[last], r) {
      assert forall j :: i < j < |nodes| ==> j == last || nodes[j] == front[j];
    }
  }

  // ----- Callee-saved values -----

  /** Node n hands what a held on to b: a copy moves it, others leave it alone unless they define its register. */
  ghost predicate Hands(n: FlowNode, a: Reg, b: Reg) {
    match n.kind
    case Copy(oldFirst, oldSecond) =>
      if b == n.second then a == oldSecond
      else if b == n.first then a == oldFirst
      else a == b && b != oldFirst && b != oldSecond
    case Phi => a == b
    case _ => a == b && !Defines(n, b)
  }

  /** Node n is where the method's entry finds the caller's value of save-on-entry register c, which is r. */
  ghost predicate Enters(n: FlowNode, r: Reg, c: Reg) {
    n.kind.StartProj? && r == c && ((n.kind.saveFirst && r == n.first) || (n.kind.saveSecond && r == n.second))
  }

  /** The value that node i found on entry was handed on from register to register, along regs. */
  ghost predicate HandedOn(nodes: seq<FlowNode>, i: nat, regs: seq<Reg>, c: Reg) {
    && i < |nodes| && |regs| == |nodes| - i && Enters(nodes[i], regs[0], c)
    && forall j :: 0 <= j < |regs| - 1 ==> HandsAt(nodes, i, regs, j)
  }

  ghost predicate HandsAt(nodes: seq<FlowNode>, i: nat, regs: seq<Reg>, j: nat) {
    i + 1 + j < |nodes| && j + 1 < |regs| && Hands(nodes[i + 1 + j], regs[j], regs[j + 1])
  }

  /** Behind nodes, register r has the caller's value of c. */
  ghost predicate Carried(nodes: seq<FlowNode>, r: Reg, c: Reg) {
    exists i: nat, regs: seq<Reg> :: HandedOn(nodes, i, regs, c) && regs[|regs| - 1] == r
  }

  /** One node. */
  lemma AfterHands(reach: Reach, n: FlowNode, r: Reg, c: Reg)
    requires c != BAD
    ensures CalleeOf(After(reach, n), r) == c <==>
      Enters(n, r, c) || exists a :: Hands(n, a, r) && CalleeOf(reach, a) == c
  {
    match n.kind
    case Copy(oldFirst, oldSecond) =>
      var a := if r == n.second then oldSecond else if r == n.first then oldFirst else r;
      assert Hands(n, a, r) <==> r == n.second || r == n.first || (r != oldFirst && r != oldSecond);
    case _ =>
      assert Hands(n, r, r) <==> n.kind.Phi? || !Defines(n, r);
  }

  lemma CarriedOn(nodes: seq<FlowNode>, a: Reg, r: Reg, c: Reg)
    requires nodes != [] && Carried(nodes[..|nodes| - 1], a, c) && Hands(nodes[|nodes| - 1], a, r)
    ensures Carried(nodes, r, c)
  {
    var front := nodes[..|nodes| - 1];
    var i: nat, regs :| HandedOn(front, i, regs, c) && regs[|regs| - 1] == a;
    var more := regs + [r];
    forall j | 0 <= j < |more| - 1 ensures HandsAt(nodes, i, more, j) {
      if j < |regs| - 1 {
        assert HandsAt(front, i, regs, j);
      }
    }
    assert HandedOn(nodes, i, more, c);
  }

  lemma CarriedHere(nodes: seq<FlowNode>, r: Reg, c: Reg)
    requires nodes != [] && Enters(nodes[|nodes| - 1], r, c)
    ensures Carried(nodes, r, c)
  {
    assert HandedOn(nodes, |nodes| - 1, [r], c);
  }

  /** The last node found the value on entry, or handed it on. */
  lemma CarriedBefore(nodes: seq<FlowNode>, r: Reg, c: Reg)
    requires Carried(nodes, r, c)
    ensures nodes != []
    ensures var n := nodes[|nodes| - 1];
      Enters(n, r, c) || exists a :: Hands(n, a, r) && Carried(nodes[..|nodes| - 1], a, c)
  {
    var i: nat, regs :| HandedOn(nodes, i, regs, c) && regs[|regs| - 1] == r;
    if |regs| > 1 {
      var front, less := nodes[..|nodes| - 1], regs[..|regs| - 1];
      assert HandsAt(nodes, i, regs, |regs| - 2);
      forall j | 0 <= j < |less| - 1 ensures HandsAt(front, i, less, j) {
        assert HandsAt(nodes, i, regs, j);
      }
      assert HandedOn(front, i, less, c);
    }
  }

  /** A register has a callee-saved value exactly if that was found on entry and handed on to it. */
  lemma {:induction false} CalleesMean(nodes: seq<FlowNode>, r: Reg, c: Reg)
    requires c != BAD
    ensures CalleeOf(AfterAll(NOTHING, nodes), r) == c <==> Carried(nodes, r, c)
    decreases |nodes|
  {
    if nodes == [] {
      if Carried(nodes, r, c) {
        CarriedBefore(nodes, r, c);
      }
    } else {
      var front, n := nodes[..|nodes| - 1], nodes[|nodes| - 1];
      AfterHands(AfterAll(NOTHING, front), n, r, c);
      if Enters(n, r, c) {
        CarriedHere(nodes, r, c);
      } else if CalleeOf(AfterAll(NOTHING, nodes), r) == c {
        var a :| Hands(n, a, r) && CalleeOf(AfterAll(NOTHING, front), a) == c;
        CalleesMean(front, a, c);
        CarriedOn(nodes, a, r, c);
      } else if Carried(nodes, r, c) {
        CarriedBefore(nodes, r, c);
        var a :| Hands(n, a, r) && Carried(front, a, c);
        CalleesMean(front, a, c);
      }
    }
  }

  /** What a reach says about the nodes that were executed. */
  ghost predicate Says(reach: Reach, nodes: seq<FlowNode>) {
    && (forall r :: HasDef(reach.defs, nodes, r))
    && (forall r, c :: c != BAD ==> (Carried(nodes, r, c) <==> r in reach.callees && reach.callees[r] == c))
  }

  lemma ReachSays(nodes: seq<FlowNode>)
    ensures Says(AfterAll(NOTHING, nodes), nodes)
  {
    var reach := AfterAll(NOTHING, nodes);
    forall r ensures HasDef(reach.defs, nodes, r) {
      DefsMean(nodes, r);
    }
    forall r, c | c != BAD ensures Carried(nodes, r, c) <==> r in reach.callees && reach.callees[r] == c {
      CalleesMean(nodes, r, c);
    }
  }

  // ----- Register contents -----

  /** The caller's value of a register, or what a node computed. */
  datatype Content = Entry(reg: Reg) | Computed(id: NodeId)

  /** What a register holds behind node n, from what the registers held before. */
  ghost function Held(n: FlowNode, before: Reg -> Content, r: Reg): Content {
    match n.kind
    case Copy(oldFirst, oldSecond) =>
      if r == n.second then before(oldSecond) else if r == n.first then before(oldFirst) else before(r)
    case Phi => before(r)
    case _ => if Enters(n, r, r) then Entry(r) else if Defines(n, r) then Computed(n.id) else before(r)
  }

  /** h lists the contents of the registers before, between and behind the nodes. */
  ghost predicate Executes(nodes: seq<FlowNode>, h: seq<Reg -> Content>) {
    |h| == |nodes| + 1 && forall i, r :: 0 <= i < |nodes| ==> h[i + 1](r) == Held(nodes[i], h[i], r)
  }

  /** A register to which the value of c was handed on holds it. */
  lemma {:induction false} CarriedIsHeld(nodes: seq<FlowNode>, h: seq<Reg -> Content>, r: Reg, c: Reg)
    requires Executes(nodes, h) && Carried(nodes, r, c)
    ensures h[|nodes|](r) == Entry(c)
    decreases |nodes|
  {
    CarriedBefore(nodes, r, c);
    var front, n := nodes[..|nodes| - 1], nodes[|nodes| - 1];
    assert h[|nodes| - 1 + 1](r) == Held(n, h[|nodes| - 1], r);
    if !Enters(n, r, c) {
      var a :| Hands(n, a, r) && Carried(front, a, c);
      assert Executes(front, h[..|nodes|]);
      CarriedIsHeld(front, h[..|nodes|], a, c);
    }
  }
}
