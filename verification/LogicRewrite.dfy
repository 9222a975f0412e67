/**
 * Replacing the roots of logic cones by MacroLogicV nodes (opto/compile.cpp) keeps the
 * value of every node that stays in the graph.
 */
module LogicRewrite {
  import opened Lists
  import opened LogicCone
  import opened LogicPacking

  function To(x: NodeId, n: NodeId, m: NodeId): NodeId {
    if x == n then m else x
  }

  /** The node with its uses of n turned into uses of m. */
  function Redirected(node: Node, n: NodeId, m: NodeId): (r: Node)
    ensures |Ins(r)| == |Ins(node)| && forall i :: 0 <= i < |Ins(r)| ==> Ins(r)[i] == To(Ins(node)[i], n, m)
  {
    match node
    case Ones => Ones
    case Opaque(op, ins) => Opaque(op, seq(|ins|, i requires 0 <= i < |ins| => To(ins[i], n, m)))
    case And(a, b) => And(To(a, n, m), To(b, n, m))
    case Or(a, b) => Or(To(a, n, m), To(b, n, m))
    case Xor(a, b) => Xor(To(a, n, m), To(b, n, m))
    case Macro(a, b, c, func) => Macro(To(a, n, m), To(b, n, m), To(c, n, m), func)
  }

  /** igvn.replace_node(n, m), with m a new node. */
  function Replaced(g: Graph, n: NodeId, m: NodeId, node: Node): Graph {
    map k | k in g.Keys + {m} && k != n :: if k == m then node else Redirected(g[k], n, m)
  }

  ghost function Reranked(rank: Rank, n: NodeId, m: NodeId): Rank
    requires n in rank
  {
    rank[m := rank[n]]
  }

  lemma ReplacedOrdered(g: Graph, rank: Rank, n: NodeId, m: NodeId, node: Node)
    requires Ordered(g, rank) && n in g && m !in g && InputsBelow(rank, Ins(node), n)
    requires forall i :: 0 <= i < |Ins(node)| ==> Ins(node)[i] in g
    ensures Ordered(Replaced(g, n, m, node), Reranked(rank, n, m))
  {
    var g2, rank2 := Replaced(g, n, m, node), Reranked(rank, n, m);
    forall k | k in g2 ensures InsBelow(g2, rank2, k) {
      if k != m {
        assert InsBelow(g, rank, k);
      }
    }
  }

  ghost predicate SameValue(g: Graph, rank: Rank, k: NodeId, g2: Graph, rank2: Rank, k2: NodeId, o: Outside)
    requires Ordered(g, rank) && Ordered(g2, rank2)
  {
    k in g && k2 in g2 && Value(g, rank, o, k) == Value(g2, rank2, o, k2)
  }

  /** A node whose operands keep their values keeps its own. */
  lemma RedirectedValue(g: Graph, rank: Rank, g2: Graph, rank2: Rank, n: NodeId, m: NodeId, o: Outside, k: NodeId)
    requires Ordered(g, rank) && Ordered(g2, rank2) && k in g && k in g2 && g2[k] == Redirected(g[k], n, m)
    requires forall i :: 0 <= i < |Ins(g[k])| ==> SameValue(g, rank, Ins(g[k])[i], g2, rank2, Ins(g2[k])[i], o)
    ensures SameValue(g, rank, k, g2, rank2, k, o)
  {
    assert InsBelow(g, rank, k) && InsBelow(g2, rank2, k);
    var ins, ins2 := Ins(g[k]), Ins(g2[k]);
    if g[k].Opaque? {
      var vs := seq(|ins|, i requires 0 <= i < |ins| => Value(g, rank, o, ins[i]));
      var vs2 := seq(|ins2|, i requires 0 <= i < |ins2| => Value(g2, rank2, o, ins2[i]));
      forall i | 0 <= i < |ins| ensures vs[i] == vs2[i] {
        assert SameValue(g, rank, ins[i], g2, rank2, ins2[i], o);
      }
      assert vs == vs2;
      assert Value(g, rank, o, k) == Fit(o.width, o.eval(g[k].op, vs));
      assert Value(g2, rank2, o, k) == Fit(o.width, o.eval(g2[k].op, vs2));
    } else if !g[k].Ones? {
      assert SameValue(g, rank, ins[0], g2, rank2, ins2[0], o);
      assert SameValue(g, rank, ins[1], g2, rank2, ins2[1], o);
      if g[k].Macro? {
        assert SameValue(g, rank, ins[2], g2, rank2, ins2[2], o);
      }
    }
  }

  /** xform_to_MacroLogicV: the first input is the last column; with two inputs the second is used twice. */
  function MacroNode(inputs: seq<NodeId>, func: Table): Node
    requires 2 <= |inputs| <= 3
  {
    Macro(if |inputs| == 3 then inputs[2] else inputs[1], inputs[1], inputs[0], func)
  }

  lemma MacroValue(g: Graph, rank: Rank, g2: Graph, rank2: Rank, o: Outside, n: NodeId, m: NodeId, inputs: seq<NodeId>,
                   func: Table)
    requires Ordered(g, rank) && Ordered(g2, rank2) && 2 <= |inputs| <= 3
    requires Tabulates(g, rank, inputs, func, n)
    requires m in g2 && g2[m] == MacroNode(inputs, func)
    requires forall i :: 0 <= i < |inputs| ==> SameValue(g, rank, inputs[i], g2, rank2, inputs[i], o)
    ensures SameValue(g, rank, n, g2, rank2, m, o)
  {
    assert InsBelow(g2, rank2, m);
    var in1, in2, in3 := inputs[0], inputs[1], if |inputs| == 3 then inputs[2] else inputs[1];
    assert Ins(g2[m]) == [in3, in2, in1];
    assert in3 == Ins(g2[m])[0] && in2 == Ins(g2[m])[1] && in1 == Ins(g2[m])[2];
    assert SameValue(g, rank, in1, g2, rank2, in1, o);
    assert SameValue(g, rank, in2, g2, rank2, in2, o);
    assert SameValue(g, rank, in3, g2, rank2, in3, o);
    var v, v1, v2, v3 := Value(g2, rank2, o, m), Value(g, rank, o, in1), Value(g, rank, o, in2), Value(g, rank, o, in3);
    forall l: nat | l < o.width ensures v[l] == Value(g, rank, o, n)[l] {
      var r := Row(v3[l], v2[l], v1[l]);
      InputColumns(v3[l], v2[l], v1[l]);
      assert RowOf(g, rank, o, inputs, l, r);
      assert v[l] == Bit(func, r);
    }
  }

  /** The new node computes what n computed, and all other nodes still compute what they did. */
  lemma {:induction false} PackedKeeps(g: Graph, rank: Rank, o: Outside, n: NodeId, m: NodeId, inputs: seq<NodeId>,
                                       func: Table, k: NodeId)
    requires Ordered(g, rank) && n in g && m !in g && 2 <= |inputs| <= 3
    requires InputsBelow(rank, inputs, n) && forall i :: 0 <= i < |inputs| ==> inputs[i] in g
    requires Tabulates(g, rank, inputs, func, n) && k in g
    ensures Ordered(Replaced(g, n, m, MacroNode(inputs, func)), Reranked(rank, n, m))
    ensures SameValue(g, rank, k, Replaced(g, n, m, MacroNode(inputs, func)), Reranked(rank, n, m), To(k, n, m), o)
    decreases rank[k]
  {
    var g2, rank2 := Replaced(g, n, m, MacroNode(inputs, func)), Reranked(rank, n, m);
    ReplacedOrdered(g, rank, n, m, MacroNode(inputs, func));
    if k == n {
      forall i | 0 <= i < |inputs| ensures SameValue(g, rank, inputs[i], g2, rank2, inputs[i], o) {
        PackedKeeps(g, rank, o, n, m, inputs, func, inputs[i]);
      }
      MacroValue(g, rank, g2, rank2, o, n, m, inputs, func);
    } else {
      assert InsBelow(g, rank, k);
      forall i | 0 <= i < |Ins(g[k])| ensures SameValue(g, rank, Ins(g[k])[i], g2, rank2, Ins(g2[k])[i], o) {
        PackedKeeps(g, rank, o, n, m, inputs, func, Ins(g[k])[i]);
      }
      RedirectedValue(g, rank, g2, rank2, n, m, o, k);
    }
  }

  // ----- Whole rewrites -----

  datatype State = State(g: Graph, rank: Rank, next: nat)

  ghost predicate Wf(s: State) {
    && Ordered(s.g, s.rank) && Closed(s.g) && Canonical(s.g)
    && forall k :: k in s.g ==> k < s.next
  }

  predicate SameShape(a: Node, b: Node) {
    && (a.Ones? == b.Ones?) && (a.Opaque? == b.Opaque?) && (a.And? == b.And?) && (a.Or? == b.Or?)
    && (a.Xor? == b.Xor?) && (a.Macro? == b.Macro?) && |Ins(a)| == |Ins(b)|
  }

  ghost predicate KeptAt(s: State, t: State, k: NodeId)
    requires Wf(s) && Wf(t)
  {
    k in s.g && k in t.g ==>
      && SameShape(s.g[k], t.g[k]) && s.rank[k] == t.rank[k]
      && forall o :: SameValue(s.g, s.rank, k, t.g, t.rank, k, o)
  }

  /** Every node that stays keeps its operation, its rank and its value. */
  ghost predicate Kept(s: State, t: State)
    requires Wf(s) && Wf(t)
  {
    forall k: NodeId :: KeptAt(s, t, k)
  }

  /** Only bitwise nodes go, and they are inputs of bitwise nodes unless in tops; new nodes have new ids. */
  ghost predicate Reworked(s: State, t: State, tops: set<NodeId>)
  {
    && s.next <= t.next
    && (forall k :: k in s.g && k !in t.g ==> IsBitwise(s.g[k]) && (k in tops || Feeds(s.g, k)))
    && (forall k :: k in t.g && k !in s.g ==> k >= s.next)
    && (forall k: NodeId :: k < s.next && Feeds(t.g, k) ==> Feeds(s.g, k))
  }

  ghost predicate RemovedBelow(s: State, t: State, bound: nat)
    requires Wf(s)
  {
    forall k :: k in s.g && k !in t.g ==> s.rank[k] < bound
  }

  ghost predicate Rewritten(s: State, t: State, tops: set<NodeId>) {
    Wf(s) && Wf(t) && Kept(s, t) && Reworked(s, t, tops)
  }

  lemma RewrittenTwice(s: State, t: State, u: State, tops: set<NodeId>, tops2: set<NodeId>)
    requires Rewritten(s, t, tops) && Rewritten(t, u, tops2)
    ensures Rewritten(s, u, tops + tops2)
  {
    forall k: NodeId ensures KeptAt(s, u, k) {
      assert KeptAt(s, t, k) && KeptAt(t, u, k);
      if k in s.g && k in u.g {
        assert k < t.next;
        forall o ensures SameValue(s.g, s.rank, k, u.g, u.rank, k, o) {
          assert SameValue(s.g, s.rank, k, t.g, t.rank, k, o);
          assert SameValue(t.g, t.rank, k, u.g, u.rank, k, o);
        }
      }
    }
    forall k | k in s.g && k !in u.g ensures IsBitwise(s.g[k]) && (k in tops + tops2 || Feeds(s.g, k)) {
      assert KeptAt(s, t, k);
    }
  }

  lemma BelowTwice(s: State, t: State, u: State, bound: nat)
    requires Wf(s) && Wf(t) && Kept(s, t) && RemovedBelow(s, t, bound) && RemovedBelow(t, u, bound)
    ensures RemovedBelow(s, u, bound)
  {
    forall k | k in s.g && k !in u.g ensures s.rank[k] < bound {
      assert KeptAt(s, t, k);
    }
  }

  lemma PackFeeds(g: Graph, n: NodeId, m: NodeId, inputs: seq<NodeId>, func: Table, k: NodeId)
    requires n in g && IsBitwise(g[n]) && m !in g && 2 <= |inputs| <= 3 && k != m
    requires forall i :: 0 <= i < |inputs| ==> Feeds(g, inputs[i])
    requires Feeds(Replaced(g, n, m, MacroNode(inputs, func)), k)
    ensures Feeds(g, k)
  {
    var g2 := Replaced(g, n, m, MacroNode(inputs, func));
    var u :| u in g2 && IsBitwise(g2[u]) && k in Ins(g2[u]);
    var i :| 0 <= i < |Ins(g2[u])| && Ins(g2[u])[i] == k;
    if u != m {
      assert k == Ins(g[u])[i];
    }
  }

  ghost function Packed(s: State, n: NodeId, inputs: seq<NodeId>, func: Table): State
    requires n in s.rank && 2 <= |inputs| <= 3
  {
    State(Replaced(s.g, n, s.next, MacroNode(inputs, func)), Reranked(s.rank, n, s.next), s.next + 1)
  }

  lemma PackedWf(s: State, n: NodeId, inputs: seq<NodeId>, func: Table)
    requires Wf(s) && n in s.g && IsBitwise(s.g[n]) && 2 <= |inputs| <= 3
    requires InputsBelow(s.rank, inputs, n) && forall i :: 0 <= i < |inputs| ==> inputs[i] in s.g
    ensures Wf(Packed(s, n, inputs, func))
  {
    var t := Packed(s, n, inputs, func);
    ReplacedOrdered(s.g, s.rank, n, s.next, MacroNode(inputs, func));
    OrderedIsClosed(t.g, t.rank);
  }

  ghost predicate Packs(s: State, n: NodeId, inputs: seq<NodeId>, func: Table)
    requires Wf(s)
  {
    && n in s.g && IsBitwise(s.g[n]) && 2 <= |inputs| <= 3
    && InputsBelow(s.rank, inputs, n)
    && (forall i :: 0 <= i < |inputs| ==> inputs[i] in s.g && Feeds(s.g, inputs[i]))
    && Tabulates(s.g, s.rank, inputs, func, n)
  }

  lemma PackKept(s: State, n: NodeId, inputs: seq<NodeId>, func: Table, k: NodeId)
    requires Wf(s) && Packs(s, n, inputs, func)
    ensures Wf(Packed(s, n, inputs, func)) && KeptAt(s, Packed(s, n, inputs, func), k)
  {
    var t := Packed(s, n, inputs, func);
    PackedWf(s, n, inputs, func);
    if k in s.g && k in t.g {
      forall o ensures SameValue(s.g, s.rank, k, t.g, t.rank, k, o) {
        PackedKeeps(s.g, s.rank, o, n, s.next, inputs, func, k);
        assert To(k, n, s.next) == k;
      }
    }
  }

  /** The new node stands for the root it replaces. */
  lemma PackStands(s: State, n: NodeId, inputs: seq<NodeId>, func: Table, o: Outside)
    requires Wf(s) && Packs(s, n, inputs, func)
    ensures Wf(Packed(s, n, inputs, func))
    ensures SameValue(s.g, s.rank, n, Packed(s, n, inputs, func).g, Packed(s, n, inputs, func).rank, s.next, o)
  {
    PackedWf(s, n, inputs, func);
    PackedKeeps(s.g, s.rank, o, n, s.next, inputs, func, n);
  }

  lemma PackReworked(s: State, n: NodeId, inputs: seq<NodeId>, func: Table)
    requires Wf(s) && Packs(s, n, inputs, func)
    ensures Reworked(s, Packed(s, n, inputs, func), {n})
    ensures RemovedBelow(s, Packed(s, n, inputs, func), s.rank[n] + 1)
  {
    var t := Packed(s, n, inputs, func);
    forall k: NodeId | k < s.next && Feeds(t.g, k) ensures Feeds(s.g, k) {
      PackFeeds(s.g, n, s.next, inputs, func, k);
    }
  }

  /** One replacement is a rewrite that removes only its root. */
  lemma PackStep(s: State, n: NodeId, inputs: seq<NodeId>, func: Table)
    requires Wf(s) && Packs(s, n, inputs, func)
    ensures Rewritten(s, Packed(s, n, inputs, func), {n})
    ensures RemovedBelow(s, Packed(s, n, inputs, func), s.rank[n] + 1)
  {
    PackedWf(s, n, inputs, func);
    forall k: NodeId ensures KeptAt(s, Packed(s, n, inputs, func), k) {
      PackKept(s, n, inputs, func, k);
    }
    PackReworked(s, n, inputs, func);
  }

  lemma RewrittenRefl(s: State)
    requires Wf(s)
    ensures Rewritten(s, s, {})
  {
    forall k: NodeId ensures KeptAt(s, s, k) {
    }
  }

  lemma RewrittenMore(s: State, t: State, tops: set<NodeId>, tops2: set<NodeId>)
    requires Rewritten(s, t, tops)
    requires forall k :: k in tops ==> k in tops2 || Feeds(s.g, k)
    ensures Rewritten(s, t, tops2)
  {
  }

  /** A node that is not a bitwise operation is there after any rewrite, with the value it had. */
  lemma OutsideSurvives(s: State, t: State, tops: set<NodeId>, k: NodeId, o: Outside)
    requires Rewritten(s, t, tops) && k in s.g && !IsBitwise(s.g[k])
    ensures k in t.g && Value(s.g, s.rank, o, k) == Value(t.g, t.rank, o, k)
  {
    assert KeptAt(s, t, k);
    assert SameValue(s.g, s.rank, k, t.g, t.rank, k, o);
  }

  lemma StaysBitwise(s: State, t: State, tops: set<NodeId>, n: NodeId)
    requires Rewritten(s, t, tops) && n in s.g && n in t.g
    ensures IsBitwise(s.g[n]) == IsBitwise(t.g[n]) && |Ins(s.g[n])| == |Ins(t.g[n])| && s.rank[n] == t.rank[n]
  {
    assert KeptAt(s, t, n);
  }

  /** Joins the rewrite done for an input of n to the rewrites before it. */
  lemma InputRewritten(s: State, t: State, u: State, n: NodeId, x: NodeId)
    requires Rewritten(s, t, {}) && Rewritten(t, u, {x})
    requires n in s.g && n in t.g && IsBitwise(t.g[n]) && x in t.g && x in Ins(t.g[n]) && t.rank[x] < t.rank[n]
    requires RemovedBelow(s, t, s.rank[n]) && RemovedBelow(t, u, t.rank[x] + 1)
    ensures Rewritten(s, u, {}) && RemovedBelow(s, u, s.rank[n])
    ensures n in u.g && IsBitwise(u.g[n]) && |Ins(u.g[n])| == |Ins(t.g[n])| && u.rank[n] == s.rank[n]
  {
    assert Feeds(t.g, x);
    RewrittenMore(t, u, {x}, {});
    RewrittenTwice(s, t, u, {}, {});
    StaysBitwise(s, t, {}, n);
    assert RemovedBelow(t, u, s.rank[n]);
    BelowTwice(s, t, u, s.rank[n]);
    StaysBitwise(t, u, {}, n);
  }

  lemma RootRewritten(s: State, t: State, u: State, n: NodeId)
    requires Rewritten(s, t, {}) && n in s.g && RemovedBelow(s, t, s.rank[n])
    requires Rewritten(t, u, {n}) && RemovedBelow(t, u, s.rank[n] + 1)
    ensures Rewritten(s, u, {n}) && RemovedBelow(s, u, s.rank[n] + 1)
  {
    RewrittenTwice(s, t, u, {}, {n});
    assert {} + {n} == {n};
    assert RemovedBelow(s, t, s.rank[n] + 1);
    BelowTwice(s, t, u, s.rank[n] + 1);
  }

  /** A bitwise operation none of whose users is one. */
  ghost predicate IsConeRoot(g: Graph, n: NodeId) {
    n in g && IsBitwise(g[n]) && !Feeds(g, n)
  }

  /** is_vector_bitwise_cone_root */
  method IsVectorBitwiseConeRoot(g: Graph, n: NodeId) returns (root: bool)
    ensures root <==> IsConeRoot(g, n)
  {
    if n !in g || !IsBitwise(g[n]) {
      return false;
    }
    return forall k :: k in g && IsBitwise(g[k]) ==> n !in Ins(g[k]);
  }

  /** A root that has not been processed is still there: it feeds no bitwise node. */
  lemma RootStays(s: State, t: State, tops: set<NodeId>, n: NodeId)
    requires Rewritten(s, t, tops) && IsConeRoot(s.g, n) && n !in tops
    ensures n in t.g && IsBitwise(t.g[n])
  {
    assert !Feeds(s.g, n);
    StaysBitwise(s, t, tops, n);
  }

  /** collect_logic_cone_roots, over the useful nodes in any order */
  method CollectLogicConeRoots(g: Graph, useful: seq<NodeId>) returns (list: seq<NodeId>)
    requires NoDup(useful)
    ensures NoDup(list) && Elems(list) == set n | n in useful && IsConeRoot(g, n)
  {
    list := [];
    for i := 0 to |useful|
      invariant NoDup(list) && Elems(list) == set n | n in useful[..i] && IsConeRoot(g, n)
    {
      assert useful[..i + 1] == useful[..i] + [useful[i]];
      var root := IsVectorBitwiseConeRoot(g, useful[i]);
      if root {
        PushKeepsUnique(list, useful[i]);
        assert useful[i] !in Elems(list);
        list := list + [useful[i]];
      }
    }
    assert useful[..|useful|] == useful;
  }

  lemma AllOutsideSurvive(s: State, t: State, tops: set<NodeId>)
    requires Rewritten(s, t, tops)
    ensures forall k, o :: k in s.g && !IsBitwise(s.g[k]) ==>
      k in t.g && Value(s.g, s.rank, o, k) == Value(t.g, t.rank, o, k)
  {
    forall k, o | k in s.g && !IsBitwise(s.g[k])
      ensures k in t.g && Value(s.g, s.rank, o, k) == Value(t.g, t.rank, o, k)
    {
      OutsideSurvives(s, t, tops, k, o);
    }
  }

  lemma LastRoot(list: seq<NodeId>, all: set<NodeId>, supported: set<NodeId>)
    requires |list| > 0 && NoDup(list) && Elems(list) <= all
    ensures var n, rest := list[|list| - 1], list[..|list| - 1];
      && NoDup(rest) && Elems(rest) <= all && n in all && n !in (all - Elems(list)) * supported
      && (all - Elems(rest)) * supported == (all - Elems(list)) * supported + if n in supported then {n} else {}
  {
    assert list == list[..|list| - 1] + [list[|list| - 1]];
    assert Elems(list) == Elems(list[..|list| - 1]) + {list[|list| - 1]};
  }

  /** n was processed between s and now: in state t right afterwards it is gone or cannot be packed. */
  ghost predicate Processed(s: State, n: NodeId, t: State, now: State, tops: set<NodeId>) {
    Wf(t) && Rewritten(s, t, tops) && Rewritten(t, now, tops) && (n in t.g ==> !Packable(t.g, n))
  }

  /** The roots were processed, with the states right afterwards in after. */
  ghost predicate AllProcessed(s: State, after: map<NodeId, State>, now: State, tops: set<NodeId>) {
    forall n :: n in after ==> Processed(s, n, after[n], now, tops)
  }

  /** One more root was processed; the others stay so. */
  lemma ProcessedNext(s: State, t: State, now: State, after: map<NodeId, State>, n: NodeId, tops: set<NodeId>)
    requires AllProcessed(s, after, t, tops) && Rewritten(t, now, {n}) && n in tops
    requires Rewritten(s, now, tops) && Wf(now) && (n in now.g ==> !Packable(now.g, n))
    ensures AllProcessed(s, after[n := now], now, tops)
  {
    RewrittenRefl(now);
    RewrittenMore(now, now, {}, tops);
    forall m | m in after && m != n ensures Processed(s, m, after[m], now, tops) {
      RewrittenTwice(after[m], t, now, tops, {n});
      assert tops + {n} == tops;
    }
  }

  class LogicOptimizer {
    var g: Graph
    ghost var rank: Rank
    var next: nat

    ghost function St(): State
      reads this
    {
      State(g, rank, next)
    }

    /** xform_to_MacroLogicV and replace_node */
    method Pack(n: NodeId, partition: seq<NodeId>, inputs: seq<NodeId>)
      requires Wf(St()) && n in g && IsBitwise(g[n]) && ConeOf(g, rank, n, partition, inputs)
      modifies this
      ensures Rewritten(old(St()), St(), {n}) && RemovedBelow(old(St()), St(), old(rank[n]) + 1)
      ensures n !in g && old(next) in g && g[old(next)].Macro?
      ensures forall o :: SameValue(old(g), old(rank), n, g, rank, old(next), o)
    {
      ghost var s := St();
      var func := ComputeTruthTable(g, rank, partition, inputs);
      PackStep(s, n, inputs, func);
      forall o
        ensures SameValue(s.g, s.rank, n, Packed(s, n, inputs, func).g, Packed(s, n, inputs, func).rank, s.next, o)
      {
        PackStands(s, n, inputs, func, o);
      }
      g, rank, next := Replaced(g, n, next, MacroNode(inputs, func)), Reranked(rank, n, next), next + 1;
      assert St() == Packed(s, n, inputs, func);
    }

    /** process_logic_cone_root */
    method ProcessLogicConeRoot(n: NodeId, visited: set<NodeId>) returns (visited': set<NodeId>)
      requires Wf(St()) && n in g && IsBitwise(g[n])
      modifies this
      ensures Rewritten(old(St()), St(), {n}) && RemovedBelow(old(St()), St(), old(rank[n]) + 1)
      ensures n in g ==> !Packable(g, n)
      ensures visited + {n} <= visited'
      decreases rank[n]
    {
      visited' := visited + {n};
      ghost var s := St();
      RewrittenRefl(s);
      var i := 0;
      while i < |Ins(g[n])|
        invariant 0 <= i
        invariant Wf(St()) && n in g && IsBitwise(g[n]) && |Ins(g[n])| == |Ins(s.g[n])| && rank[n] == s.rank[n]
        invariant Rewritten(s, St(), {}) && RemovedBelow(s, St(), s.rank[n])
        invariant visited + {n} <= visited'
        decreases |Ins(s.g[n])| - i
      {
        assert InsBelow(g, rank, n);
        var x := Ins(g[n])[i];
        if x !in visited' && IsBitwise(g[x]) {
          ghost var t := St();
          visited' := ProcessLogicConeRoot(x, visited');
          InputRewritten(s, t, St(), n, x);
        }
        i := i + 1;
      }
      ghost var t := St();
      var ok, partition, inputs := ComputeLogicCone(g, rank, n);
      if ok {
        Pack(n, partition, inputs);
        RootRewritten(s, t, St(), n);
      } else {
        RewrittenMore(s, t, {}, {n});
      }
    }

    /**
     * optimize_logic_cones. supported holds the roots whose vector type has a MacroLogicV instruction.
     * Every node that is not a bitwise operation is still there and computes what it did before, and every
     * supported root was processed, which left it replaced or impossible to pack.
     */
    method OptimizeLogicCones(useful: seq<NodeId>, supported: set<NodeId>) returns (ghost after: map<NodeId, State>)
      requires Wf(St()) && NoDup(useful)
      modifies this
      ensures Wf(St()) && Rewritten(old(St()), St(), Elems(useful))
      ensures forall k, o :: k in old(g) && !IsBitwise(old(g)[k]) ==>
        k in g && Value(old(g), old(rank), o, k) == Value(g, rank, o, k)
      ensures after.Keys == set n | n in useful && n in supported && IsConeRoot(old(g), n)
      ensures AllProcessed(old(St()), after, St(), Elems(useful))
    {
      ghost var s := St();
      RewrittenRefl(s);
      ghost var tops: set<NodeId> := {};
      after := map[];
      var list := CollectLogicConeRoots(g, useful);
      ghost var all := Elems(list);
      while |list| > 0
        invariant NoDup(list) && tops == (all - Elems(list)) * supported && Elems(list) <= all
        invariant Rewritten(s, St(), tops) && tops <= Elems(useful)
        invariant after.Keys == tops && (forall n :: n in all ==> IsConeRoot(s.g, n) && n in useful)
        invariant AllProcessed(s, after, St(), Elems(useful))
      {
        var n := list[|list| - 1];
        LastRoot(list, all, supported);
        list := list[..|list| - 1];
        if n in supported {
          after := ProcessRoot(n, s, tops, after, Elems(useful));
          tops := tops + {n};
        }
      }
      RewrittenMore(s, St(), tops, Elems(useful));
      AllOutsideSurvive(s, St(), tops);
    }

    /** One supported root. */
    method ProcessRoot(n: NodeId, ghost s: State, ghost tops: set<NodeId>, ghost after: map<NodeId, State>,
                       ghost all: set<NodeId>) returns (ghost after': map<NodeId, State>)
      requires Rewritten(s, St(), tops) && IsConeRoot(s.g, n) && n !in tops && tops + {n} <= all
      requires AllProcessed(s, after, St(), all)
      modifies this
      ensures Rewritten(s, St(), tops + {n}) && AllProcessed(s, after', St(), all) && after'.Keys == after.Keys + {n}
    {
      ghost var t := St();
      RootStays(s, t, tops, n);
      var visited := ProcessLogicConeRoot(n, {});
      RewrittenTwice(s, t, St(), tops, {n});
      RewrittenMore(s, St(), tops + {n}, all);
      ProcessedNext(s, t, St(), after, n, all);
      after' := after[n := St()];
    }
  }
}
