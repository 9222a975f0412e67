/**
 * The connection graph and its completion (opto/escape.cpp, opto/escape.hpp), for graphs
 * without arraycopy nodes: references to objects are propagated along deferred edges,
 * to the fields of the objects, and between fields that may be the same.
 */
module PointsTo {
  type NodeId = nat

  /** Type::OffsetBot: the offset is not known. */
  const OFFSET_BOT: int := -2000000001

  datatype Kind = JavaObject | LocalVar | Field(offset: int, isOop: bool)
  type Kinds = map<NodeId, Kind>

  /** An entry of a use list: a node that points here, or a field that has this node as its base. */
  datatype Use = Val(node: NodeId) | Base(node: NodeId)

  /** The lists of all nodes, and the flags that say that phantom_obj is in them. */
  datatype Graph = Graph(
    edges: map<NodeId, seq<NodeId>>,
    uses: map<NodeId, seq<Use>>,
    bases: map<NodeId, seq<NodeId>>,
    unknownPtr: set<NodeId>,
    unknownBase: set<NodeId>)

  datatype World = World(kinds: Kinds, phantom: NodeId, nullObj: NodeId)

  ghost predicate WorldOk(w: World) {
    && w.phantom in w.kinds && w.kinds[w.phantom].JavaObject?
    && w.nullObj in w.kinds && w.kinds[w.nullObj].JavaObject? && w.nullObj != w.phantom
  }

  predicate IsOopField(w: World, n: NodeId) {
    n in w.kinds && w.kinds[n].Field? && w.kinds[n].isOop
  }

  predicate IsObject(w: World, n: NodeId) {
    n in w.kinds && w.kinds[n].JavaObject?
  }

  predicate IsLocal(w: World, n: NodeId) {
    n in w.kinds && w.kinds[n].LocalVar?
  }

  /** A node that can point at objects. */
  predicate IsPointer(w: World, n: NodeId) {
    IsLocal(w, n) || IsOopField(w, n)
  }

  // ----- The lists mirror each other -----

  ghost predicate Listed(w: World, g: Graph) {
    g.edges.Keys == w.kinds.Keys && g.uses.Keys == w.kinds.Keys && g.bases.Keys == w.kinds.Keys
  }

  /** What the lists of a say about b, and the lists of b about a. */
  ghost predicate PairOk(w: World, g: Graph, a: NodeId, b: NodeId)
    requires Listed(w, g)
  {
    a in w.kinds && b in w.kinds ==>
      && (if IsObject(w, a) then b in g.edges[a] <==> a in g.bases[b] && a != w.nullObj
        else b in g.edges[a] <==> Val(a) in g.uses[b])
      && (Val(a) in g.uses[b] ==> IsPointer(w, a))
      && (Base(b) in g.uses[a] <==> IsLocal(w, a) && a in g.bases[b])
      && (a in g.bases[b] ==> w.kinds[b].Field? && (IsObject(w, a) || IsLocal(w, a)))
  }

  /** The lists of a hold nodes only, and its flags are right. */
  ghost predicate NodeOk(w: World, g: Graph, a: NodeId)
    requires Listed(w, g) && a in w.kinds
  {
    && (forall b :: b in g.edges[a] || b in g.bases[a] ==> b in w.kinds)
    && (forall u :: u in g.uses[a] ==> u.node in w.kinds)
    && (a in g.unknownPtr <==> !IsObject(w, a) && w.phantom in g.edges[a])
    && (a in g.unknownBase <==> w.phantom in g.bases[a])
  }

  ghost predicate GraphOk(w: World, g: Graph) {
    && WorldOk(w) && Listed(w, g)
    && (forall a: NodeId, b: NodeId :: PairOk(w, g, a, b))
    && (forall a :: a in w.kinds ==> NodeOk(w, g, a))
  }

  function WithEdge(w: World, g: Graph, from: NodeId, to: NodeId): Graph
    requires from in g.edges && to in g.uses
  {
    g.(edges := g.edges[from := g.edges[from] + [to]],
       uses := g.uses[to := g.uses[to] + [Val(from)]],
       unknownPtr := if to == w.phantom then g.unknownPtr + {from} else g.unknownPtr)
  }

  lemma WithEdgeNode(w: World, g: Graph, from: NodeId, to: NodeId, a: NodeId)
    requires WorldOk(w) && Listed(w, g) && a in w.kinds && NodeOk(w, g, a)
    requires IsPointer(w, from) && to in w.kinds && to !in g.edges[from]
    ensures NodeOk(w, WithEdge(w, g, from, to), a)
  {
  }

  lemma WithEdgePair(w: World, g: Graph, from: NodeId, to: NodeId, a: NodeId, b: NodeId)
    requires WorldOk(w) && Listed(w, g) && PairOk(w, g, a, b)
    requires IsPointer(w, from) && to in w.kinds && to !in g.edges[from]
    ensures PairOk(w, WithEdge(w, g, from, to), a, b)
  {
  }

  lemma WithEdgePairs(w: World, g: Graph, from: NodeId, to: NodeId)
    requires GraphOk(w, g) && IsPointer(w, from) && to in w.kinds && to !in g.edges[from]
    ensures Listed(w, WithEdge(w, g, from, to)) &&
      forall a: NodeId, b: NodeId :: PairOk(w, WithEdge(w, g, from, to), a, b)
  {
    var g2 := WithEdge(w, g, from, to);
    forall a: NodeId, b: NodeId ensures PairOk(w, g2, a, b) {
      assert PairOk(w, g, a, b);
      WithEdgePair(w, g, from, to, a, b);
    }
  }

  lemma WithEdgeNodes(w: World, g: Graph, from: NodeId, to: NodeId)
    requires GraphOk(w, g) && IsPointer(w, from) && to in w.kinds && to !in g.edges[from]
    ensures Listed(w, WithEdge(w, g, from, to)) && forall a :: a in w.kinds ==> NodeOk(w, WithEdge(w, g, from, to), a)
  {
    var g2 := WithEdge(w, g, from, to);
    forall a | a in w.kinds ensures NodeOk(w, g2, a) {
      assert NodeOk(w, g, a);
      WithEdgeNode(w, g, from, to, a);
    }
  }

  /** A new edge from a pointer keeps edges and uses mirrored. */
  lemma WithEdgeOk(w: World, g: Graph, from: NodeId, to: NodeId)
    requires GraphOk(w, g) && IsPointer(w, from) && to in w.kinds && to !in g.edges[from]
    ensures GraphOk(w, WithEdge(w, g, from, to))
  {
    WithEdgePairs(w, g, from, to);
    WithEdgeNodes(w, g, from, to);
  }

  function WithBase(w: World, g: Graph, f: NodeId, to: NodeId): Graph
    requires f in g.bases && to in g.edges && to in g.uses
  {
    g.(bases := g.bases[f := g.bases[f] + [to]],
       edges := if IsObject(w, to) && to != w.nullObj then g.edges[to := g.edges[to] + [f]] else g.edges,
       uses := if IsObject(w, to) then g.uses else g.uses[to := g.uses[to] + [Base(f)]],
       unknownBase := if to == w.phantom then g.unknownBase + {f} else g.unknownBase)
  }

  lemma WithBaseNode(w: World, g: Graph, f: NodeId, to: NodeId, a: NodeId)
    requires WorldOk(w) && Listed(w, g) && a in w.kinds && NodeOk(w, g, a)
    requires f in w.kinds && w.kinds[f].Field? && (IsObject(w, to) || IsLocal(w, to)) && to !in g.bases[f]
    ensures NodeOk(w, WithBase(w, g, f, to), a)
  {
  }

  lemma WithBasePair(w: World, g: Graph, f: NodeId, to: NodeId, a: NodeId, b: NodeId)
    requires WorldOk(w) && Listed(w, g) && PairOk(w, g, a, b) && PairOk(w, g, to, f)
    requires f in w.kinds && w.kinds[f].Field? && (IsObject(w, to) || IsLocal(w, to)) && to !in g.bases[f]
    ensures PairOk(w, WithBase(w, g, f, to), a, b)
  {
  }

  lemma WithBasePairs(w: World, g: Graph, f: NodeId, to: NodeId)
    requires GraphOk(w, g) && f in w.kinds && w.kinds[f].Field? && (IsObject(w, to) || IsLocal(w, to))
    requires to !in g.bases[f]
    ensures Listed(w, WithBase(w, g, f, to)) && forall a: NodeId, b: NodeId :: PairOk(w, WithBase(w, g, f, to), a, b)
  {
    var g2 := WithBase(w, g, f, to);
    forall a: NodeId, b: NodeId ensures PairOk(w, g2, a, b) {
      assert PairOk(w, g, a, b) && PairOk(w, g, to, f);
      WithBasePair(w, g, f, to, a, b);
    }
  }

  lemma WithBaseNodes(w: World, g: Graph, f: NodeId, to: NodeId)
    requires GraphOk(w, g) && f in w.kinds && w.kinds[f].Field? && (IsObject(w, to) || IsLocal(w, to))
    requires to !in g.bases[f]
    ensures Listed(w, WithBase(w, g, f, to)) && forall a :: a in w.kinds ==> NodeOk(w, WithBase(w, g, f, to), a)
  {
    var g2 := WithBase(w, g, f, to);
    forall a | a in w.kinds ensures NodeOk(w, g2, a) {
      assert NodeOk(w, g, a);
      WithBaseNode(w, g, f, to, a);
    }
  }

  /** A new base keeps bases, base uses and the edges of objects mirrored. */
  lemma WithBaseOk(w: World, g: Graph, f: NodeId, to: NodeId)
    requires GraphOk(w, g) && f in w.kinds && w.kinds[f].Field? && (IsObject(w, to) || IsLocal(w, to))
    requires to !in g.bases[f]
    ensures GraphOk(w, WithBase(w, g, f, to))
  {
    WithBasePairs(w, g, f, to);
    WithBaseNodes(w, g, f, to);
  }

  // ----- What completion is for -----

  /** Who points at whom, and which fields have which bases. */
  datatype Facts = Facts(points: set<(NodeId, NodeId)>, based: set<(NodeId, NodeId)>)

  ghost function FactsOf(w: World, g: Graph): Facts
    requires Listed(w, g)
  {
    Facts(set a, b | a in w.kinds && b in w.kinds && !IsObject(w, a) && b in g.edges[a] :: (a, b),
          set f, b | f in w.kinds && b in w.kinds && b in g.bases[f] :: (f, b))
  }

  /** Object o is reached through the deferred edge from v to u. */
  ghost predicate Deferred(w: World, s: Facts, v: NodeId, u: NodeId, o: NodeId) {
    (v, u) in s.points && (u, o) in s.points ==> (v, o) in s.points
  }

  /** Object o is a base of the fields of a local that points at it. */
  ghost predicate Based(w: World, s: Facts, f: NodeId, l: NodeId, o: NodeId) {
    IsLocal(w, l) && (f, l) in s.based && (l, o) in s.points ==> (f, o) in s.based
  }

  /** Field node f may stand for the field at offset k: that is its offset, or its offset is not known. */
  ghost predicate Covers(w: World, f: NodeId, k: int) {
    f in w.kinds && w.kinds[f].Field? && w.kinds[f].isOop && (w.kinds[f].offset == k || w.kinds[f].offset == OFFSET_BOT)
  }

  /** Some field is one that both nodes may stand for. */
  ghost predicate MayAlias(w: World, u: NodeId, f: NodeId) {
    u != f && exists k :: Covers(w, u, k) && Covers(w, f, k)
  }

  /** The test of add_fields_to_worklist on two field nodes of one base. */
  predicate SameField(w: World, u: NodeId, f: NodeId) {
    && IsOopField(w, u) && IsOopField(w, f) && u != f
    && (w.kinds[u].offset == w.kinds[f].offset || w.kinds[u].offset == OFFSET_BOT || w.kinds[f].offset == OFFSET_BOT)
  }

  /** It finds exactly the nodes that may stand for one field. */
  lemma SameFieldAliases(w: World, u: NodeId, f: NodeId)
    ensures SameField(w, u, f) <==> MayAlias(w, u, f)
  {
    if SameField(w, u, f) {
      var k := if w.kinds[u].offset == OFFSET_BOT then w.kinds[f].offset else w.kinds[u].offset;
      assert Covers(w, u, k) && Covers(w, f, k);
    }
  }

  /** Fields that share a base and may be the same share what they point at. */
  ghost predicate Shared(w: World, s: Facts, u: NodeId, f: NodeId, b: NodeId, o: NodeId) {
    MayAlias(w, u, f) && (u, b) in s.based && (f, b) in s.based && b != w.phantom && b != w.nullObj &&
    (u, o) in s.points ==>
      (f, o) in s.points
  }

  ghost predicate ClosedFor(w: World, s: Facts, o: NodeId) {
    && (forall v: NodeId, u: NodeId :: Deferred(w, s, v, u, o))
    && (forall f: NodeId, l: NodeId :: Based(w, s, f, l, o))
    && (forall u: NodeId, f: NodeId, b: NodeId :: Shared(w, s, u, f, b, o))
  }

  /** References to all objects have been propagated. */
  ghost predicate Closed(w: World, s: Facts) {
    forall o :: IsObject(w, o) ==> ClosedFor(w, s, o)
  }

  ghost predicate IsPath(s: Facts, path: seq<NodeId>) {
    |path| >= 2 && forall i :: 0 <= i < |path| - 1 ==> (path[i], path[i + 1]) in s.points
  }

  /** A node that reaches an object along deferred edges points at it directly. */
  lemma {:induction false} PathsAreDirect(w: World, s: Facts, path: seq<NodeId>)
    requires Closed(w, s) && IsPath(s, path) && IsObject(w, path[|path| - 1])
    ensures (path[0], path[|path| - 1]) in s.points
    decreases |path|
  {
    if |path| > 2 {
      var rest := path[1..];
      assert forall i :: 0 <= i < |rest| - 1 ==> (rest[i], rest[i + 1]) == (path[i + 1], path[i + 2]);
      PathsAreDirect(w, s, rest);
      assert Deferred(w, s, path[0], path[1], path[|path| - 1]);
    }
  }

  ghost predicate Within(s: Facts, s2: Facts) {
    s.points <= s2.points && s.based <= s2.based
  }

  /** Any oop field may hold an unknown object. */
  ghost predicate AllowsUnknown(w: World, s: Facts) {
    forall f: NodeId :: IsOopField(w, f) ==> (f, w.phantom) in s.points
  }

  // ----- What goes on the worklist -----

  ghost function Entries(s: seq<Use>): set<Use> {
    set u | u in s
  }

  ghost function UseSet(g: Graph, n: NodeId): set<Use>
    requires n in g.uses
  {
    Entries(g.uses[n])
  }

  /** Fields u and f may be the same field, by way of base b. */
  ghost predicate RelatedBy(w: World, g: Graph, u: NodeId, f: NodeId, b: NodeId)
    requires Listed(w, g)
  {
    MayAlias(w, u, f) && b in g.bases[u] && b in g.bases[f] && b != w.phantom && b != w.nullObj
  }

  ghost function RelatedUses(w: World, g: Graph, u: NodeId, b: NodeId): set<Use>
    requires Listed(w, g)
  {
    set f | f in w.kinds && RelatedBy(w, g, u, f, b) :: Val(f)
  }

  /** The uses of field u and the fields related to it. */
  ghost function FieldUses(w: World, g: Graph, u: NodeId): set<Use>
    requires Listed(w, g) && u in w.kinds
  {
    UseSet(g, u) + (set f, b | f in w.kinds && b in w.kinds && RelatedBy(w, g, u, f, b) :: Val(f))
  }

  ghost function Universe(w: World): set<Use> {
    (set n | n in w.kinds :: Val(n)) + (set n | n in w.kinds :: Base(n))
  }

  /** The reference to o that processing u makes is one that s allows. */
  ghost predicate Due(w: World, s: Facts, o: NodeId, u: Use) {
    match u
    case Val(n) => IsPointer(w, n) && (n, o) in s.points
    case Base(f) => f in w.kinds && w.kinds[f].Field? && (f, o) in s.based
  }

  /** The reference to o is there. */
  ghost predicate DoneFor(w: World, g: Graph, o: NodeId, u: Use)
    requires Listed(w, g)
  {
    match u
    case Val(n) => n in w.kinds && o in g.edges[n]
    case Base(f) => f in w.kinds && o in g.bases[f]
  }

  lemma UsesDue(w: World, g: Graph, s: Facts, o: NodeId, n: NodeId, u: Use)
    requires GraphOk(w, g) && Closed(w, s) && Within(FactsOf(w, g), s) && IsObject(w, o)
    requires IsPointer(w, n) && (n, o) in s.points && u in g.uses[n]
    ensures Due(w, s, o, u)
  {
    assert NodeOk(w, g, n);
    assert ClosedFor(w, s, o);
    match u
    case Val(v) =>
      assert PairOk(w, g, v, n);
      assert (v, n) in FactsOf(w, g).points;
      assert Deferred(w, s, v, n, o);
    case Base(f) =>
      assert PairOk(w, g, n, f);
      assert (f, n) in FactsOf(w, g).based;
      assert Based(w, s, f, n, o);
  }

  lemma RelatedDue(w: World, g: Graph, s: Facts, o: NodeId, n: NodeId, f: NodeId, b: NodeId)
    requires GraphOk(w, g) && Closed(w, s) && Within(FactsOf(w, g), s) && IsObject(w, o)
    requires (n, o) in s.points && RelatedBy(w, g, n, f, b)
    ensures Due(w, s, o, Val(f))
  {
    assert NodeOk(w, g, n);
    assert ClosedFor(w, s, o);
    assert (n, b) in FactsOf(w, g).based && (f, b) in FactsOf(w, g).based;
    assert Shared(w, s, n, f, b, o);
  }

  lemma FieldUsesDue(w: World, g: Graph, s: Facts, o: NodeId, n: NodeId, u: Use)
    requires GraphOk(w, g) && Closed(w, s) && Within(FactsOf(w, g), s) && IsObject(w, o)
    requires IsOopField(w, n) && (n, o) in s.points && u in FieldUses(w, g, n)
    ensures Due(w, s, o, u)
  {
    if u in UseSet(g, n) {
      UsesDue(w, g, s, o, n, u);
    } else {
      var f, b :| f in w.kinds && b in w.kinds && RelatedBy(w, g, n, f, b) && u == Val(f);
      RelatedDue(w, g, s, o, n, f, b);
    }
  }

  /** Everything that must follow from n pointing at o is there. */
  ghost predicate Propagated(w: World, g: Graph, o: NodeId, n: NodeId)
    requires Listed(w, g) && o in w.kinds
  {
    n in w.kinds && Val(n) in g.uses[o] ==>
      && (forall u :: u in g.uses[n] ==> DoneFor(w, g, o, u))
      && (IsOopField(w, n) ==> forall u :: u in FieldUses(w, g, n) ==> DoneFor(w, g, o, u))
  }

  lemma PointsAt(w: World, g: Graph, n: NodeId, o: NodeId)
    requires GraphOk(w, g) && (n, o) in FactsOf(w, g).points
    ensures IsPointer(w, n) && Val(n) in g.uses[o]
  {
    assert PairOk(w, g, n, o);
  }

  lemma DeferredDone(w: World, g: Graph, o: NodeId, v: NodeId, u: NodeId)
    requires GraphOk(w, g) && IsObject(w, o) && Propagated(w, g, o, u)
    ensures Deferred(w, FactsOf(w, g), v, u, o)
  {
    var s := FactsOf(w, g);
    if (v, u) in s.points && (u, o) in s.points {
      PointsAt(w, g, v, u);
      PointsAt(w, g, u, o);
      assert DoneFor(w, g, o, Val(v));
    }
  }

  lemma BasedDone(w: World, g: Graph, o: NodeId, f: NodeId, l: NodeId)
    requires GraphOk(w, g) && IsObject(w, o) && Propagated(w, g, o, l)
    ensures Based(w, FactsOf(w, g), f, l, o)
  {
    var s := FactsOf(w, g);
    if IsLocal(w, l) && (f, l) in s.based && (l, o) in s.points {
      PointsAt(w, g, l, o);
      assert PairOk(w, g, l, f);
      assert DoneFor(w, g, o, Base(f));
    }
  }

  lemma SharedDone(w: World, g: Graph, o: NodeId, u: NodeId, f: NodeId, b: NodeId)
    requires GraphOk(w, g) && IsObject(w, o) && Propagated(w, g, o, u)
    ensures Shared(w, FactsOf(w, g), u, f, b, o)
  {
    var s := FactsOf(w, g);
    if MayAlias(w, u, f) && (u, b) in s.based && (f, b) in s.based && b != w.phantom && b != w.nullObj &&
      (u, o) in s.points {
      PointsAt(w, g, u, o);
      assert RelatedBy(w, g, u, f, b);
      assert Val(f) in FieldUses(w, g, u);
      assert DoneFor(w, g, o, Val(f));
    }
  }

  /** If the whole worklist of o was there already, o has been propagated. */
  lemma PropagatedIsClosed(w: World, g: Graph, o: NodeId)
    requires GraphOk(w, g) && IsObject(w, o) && forall n: NodeId :: Propagated(w, g, o, n)
    ensures ClosedFor(w, FactsOf(w, g), o)
  {
    forall v: NodeId, u: NodeId ensures Deferred(w, FactsOf(w, g), v, u, o) {
      DeferredDone(w, g, o, v, u);
    }
    forall f: NodeId, l: NodeId ensures Based(w, FactsOf(w, g), f, l, o) {
      BasedDone(w, g, o, f, l);
    }
    forall u: NodeId, f: NodeId, b: NodeId ensures Shared(w, FactsOf(w, g), u, f, b, o) {
      SharedDone(w, g, o, u, f, b);
    }
  }

  /** In a completed graph, field nodes of one base that may stand for the same field hold the same objects. */
  lemma FieldsAgree(w: World, g: Graph, u: NodeId, f: NodeId, b: NodeId, k: int, o: NodeId)
    requires GraphOk(w, g) && Closed(w, FactsOf(w, g)) && Covers(w, u, k) && Covers(w, f, k)
    requires b in g.bases[u] && b in g.bases[f] && b != w.phantom && b != w.nullObj
    requires IsObject(w, o) && o in g.edges[u]
    ensures o in g.edges[f]
  {
    assert NodeOk(w, g, u) && NodeOk(w, g, f);
    assert ClosedFor(w, FactsOf(w, g), o);
    assert Shared(w, FactsOf(w, g), u, f, b, o);
  }
}
