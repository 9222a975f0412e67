/**
 * Completing the connection graph (opto/escape.cpp, add_java_object_edges and
 * complete_connection_graph): references are propagated object by object until a whole
 * pass adds nothing.
 */
module PointsToCompletion {
  import opened Wrappers
  import opened PointsTo

  /** to has the entries of from, then new ones, and those are the members of added that were missing. */
  ghost predicate Extended(from: seq<Use>, to: seq<Use>, added: set<Use>) {
    && |from| <= |to| && to[..|from|] == from
    && Entries(to) == Entries(from) + added
    && (added <= Entries(from) ==> to == from)
  }

  lemma ExtendedTwice(a: seq<Use>, b: seq<Use>, c: seq<Use>, s: set<Use>, t: set<Use>)
    requires Extended(a, b, s) && Extended(b, c, t)
    ensures Extended(a, c, s + t)
  {
    assert c[..|a|] == c[..|b|][..|a|];
  }

  ghost predicate AllDue(w: World, s: Facts, o: NodeId, worklist: seq<Use>) {
    forall i :: 0 <= i < |worklist| ==> Due(w, s, o, worklist[i])
  }

  lemma ExtendedDue(w: World, s: Facts, o: NodeId, from: seq<Use>, to: seq<Use>, added: set<Use>)
    requires Extended(from, to, added) && AllDue(w, s, o, from) && forall u :: u in added ==> Due(w, s, o, u)
    ensures AllDue(w, s, o, to)
  {
    forall i | 0 <= i < |to| ensures Due(w, s, o, to[i]) {
      assert to[i] in Entries(to);
      if to[i] in Entries(from) {
        var j :| 0 <= j < |from| && from[j] == to[i];
      }
    }
  }

  ghost predicate GrownAt(w: World, g: Graph, g2: Graph, n: NodeId)
    requires Listed(w, g) && Listed(w, g2)
  {
    n in w.kinds ==>
      (forall b :: b in g.edges[n] ==> b in g2.edges[n]) && (forall b :: b in g.bases[n] ==> b in g2.bases[n])
  }

  /** No edge and no base is lost. */
  ghost predicate Grown(w: World, g: Graph, g2: Graph) {
    Listed(w, g) && Listed(w, g2) && forall n: NodeId :: GrownAt(w, g, g2, n)
  }

  lemma DoneStays(w: World, g: Graph, g2: Graph, o: NodeId, u: Use)
    requires Grown(w, g, g2) && DoneFor(w, g, o, u)
    ensures DoneFor(w, g2, o, u)
  {
    assert GrownAt(w, g, g2, u.node);
  }

  lemma WithinEdge(w: World, g: Graph, s: Facts, from: NodeId, to: NodeId)
    requires Listed(w, g) && Within(FactsOf(w, g), s) && IsPointer(w, from) && to in w.kinds && to !in g.edges[from]
    requires (from, to) in s.points
    ensures Listed(w, WithEdge(w, g, from, to)) && Within(FactsOf(w, WithEdge(w, g, from, to)), s)
    ensures Grown(w, g, WithEdge(w, g, from, to))
  {
    var g2 := WithEdge(w, g, from, to);
    forall a, b | (a, b) in FactsOf(w, g2).points ensures (a, b) in s.points {
      assert (a, b) != (from, to) ==> (a, b) in FactsOf(w, g).points;
    }
    assert FactsOf(w, g2).based == FactsOf(w, g).based;
  }

  lemma WithinBase(w: World, g: Graph, s: Facts, f: NodeId, to: NodeId)
    requires Listed(w, g) && Within(FactsOf(w, g), s) && f in w.kinds && w.kinds[f].Field?
    requires IsObject(w, to) || IsLocal(w, to)
    requires to !in g.bases[f] && (f, to) in s.based
    ensures Listed(w, WithBase(w, g, f, to)) && Within(FactsOf(w, WithBase(w, g, f, to)), s)
    ensures Grown(w, g, WithBase(w, g, f, to))
  {
    var g2 := WithBase(w, g, f, to);
    forall a, b | (a, b) in FactsOf(w, g2).based ensures (a, b) in s.based {
      assert (a, b) != (f, to) ==> (a, b) in FactsOf(w, g).based;
    }
    assert FactsOf(w, g2).points == FactsOf(w, g).points;
  }

  lemma FlagsTell(w: World, g: Graph, a: NodeId)
    requires GraphOk(w, g) && a in w.kinds
    ensures Listed(w, g)
    ensures a in g.unknownPtr <==> !IsObject(w, a) && w.phantom in g.edges[a]
    ensures a in g.unknownBase <==> w.phantom in g.bases[a]
  {
    assert NodeOk(w, g, a);
  }

  // ----- Related fields -----

  /** The fields that have a local as their base, by its use list. */
  function BaseUses(us: seq<Use>): seq<NodeId> {
    if us == [] then []
    else if us[0].Base? then [us[0].node] + BaseUses(us[1..])
    else BaseUses(us[1..])
  }

  lemma {:induction false} BaseUsesMembers(us: seq<Use>, f: NodeId)
    ensures f in BaseUses(us) <==> Base(f) in us
  {
    if us != [] {
      BaseUsesMembers(us[1..], f);
      assert us == [us[0]] + us[1..];
    }
  }

  /** The fields of a base; those of phantom_obj and null_obj are not looked at. */
  function FieldsOf(w: World, g: Graph, b: NodeId): seq<NodeId>
    requires b in g.uses && b in g.edges
  {
    if IsLocal(w, b) then BaseUses(g.uses[b])
    else if b == w.phantom || b == w.nullObj then []
    else g.edges[b]
  }

  ghost function Matching(w: World, u: NodeId, fields: seq<NodeId>): set<Use> {
    set f | f in fields && SameField(w, u, f) :: Val(f)
  }

  lemma FieldsOfMembers(w: World, g: Graph, b: NodeId, f: NodeId)
    requires GraphOk(w, g) && (IsObject(w, b) || IsLocal(w, b)) && f in w.kinds
    ensures f in FieldsOf(w, g, b) <==> b in g.bases[f] && b != w.phantom && b != w.nullObj
  {
    assert PairOk(w, g, b, f);
    if IsLocal(w, b) {
      BaseUsesMembers(g.uses[b], f);
    }
  }

  lemma MatchingIsRelated(w: World, g: Graph, u: NodeId, b: NodeId)
    requires GraphOk(w, g) && u in w.kinds && b in g.bases[u]
    ensures (IsObject(w, b) || IsLocal(w, b)) && Matching(w, u, FieldsOf(w, g, b)) == RelatedUses(w, g, u, b)
  {
    assert NodeOk(w, g, u) && PairOk(w, g, b, u);
    forall f: NodeId ensures Val(f) in Matching(w, u, FieldsOf(w, g, b)) <==> Val(f) in RelatedUses(w, g, u, b) {
      SameFieldAliases(w, u, f);
      if f in w.kinds {
        FieldsOfMembers(w, g, b, f);
      }
    }
  }

  /** What the first bases of u relate it to. */
  ghost function RelatedSoFar(w: World, g: Graph, u: NodeId, bs: seq<NodeId>): set<Use>
    requires Listed(w, g)
  {
    set f, b | f in w.kinds && b in bs && RelatedBy(w, g, u, f, b) :: Val(f)
  }

  lemma RelatedNext(w: World, g: Graph, u: NodeId, bs: seq<NodeId>, i: nat)
    requires Listed(w, g) && i < |bs|
    ensures RelatedSoFar(w, g, u, bs[..i + 1]) == RelatedSoFar(w, g, u, bs[..i]) + RelatedUses(w, g, u, bs[i])
  {
    assert bs[..i + 1] == bs[..i] + [bs[i]];
  }

  lemma RelatedEnds(w: World, g: Graph, u: NodeId, bs: seq<NodeId>)
    requires Listed(w, g)
    ensures RelatedSoFar(w, g, u, bs[..0]) == {} && RelatedSoFar(w, g, u, bs[..|bs|]) == RelatedSoFar(w, g, u, bs)
  {
    assert bs[..|bs|] == bs;
  }

  lemma RelatedAll(w: World, g: Graph, u: NodeId)
    requires GraphOk(w, g) && u in w.kinds
    ensures UseSet(g, u) + RelatedSoFar(w, g, u, g.bases[u]) == FieldUses(w, g, u)
  {
    assert NodeOk(w, g, u);
  }

  // ----- One object -----

  /**
   * The graph is in order and below s, a solution that lets every oop field be unknown. (Folded: it opens where SoundAt
   * is mentioned.)
   */
  ghost predicate Sound(w: World, g: Graph, s: Facts) {
    WorldOk(w) && Listed(w, g) && forall x: Graph :: x == g ==> SoundAt(w, x, s)
  }

  ghost predicate SoundAt(w: World, g: Graph, s: Facts) {
    GraphOk(w, g) && Within(FactsOf(w, g), s) && Closed(w, s) && AllowsUnknown(w, s)
  }

  lemma EdgeSound(w: World, g: Graph, s: Facts, from: NodeId, to: NodeId)
    requires Sound(w, g, s) && IsPointer(w, from) && to in w.kinds && to !in g.edges[from] && (from, to) in s.points
    ensures Sound(w, WithEdge(w, g, from, to), s) && Grown(w, g, WithEdge(w, g, from, to))
    ensures DoneFor(w, WithEdge(w, g, from, to), to, Val(from))
  {
    assert SoundAt(w, g, s);
    WithEdgeOk(w, g, from, to);
    WithinEdge(w, g, s, from, to);
  }

  lemma BaseSound(w: World, g: Graph, s: Facts, f: NodeId, to: NodeId)
    requires Sound(w, g, s) && f in w.kinds && w.kinds[f].Field? && (IsObject(w, to) || IsLocal(w, to))
    requires to !in g.bases[f] && (f, to) in s.based
    ensures Sound(w, WithBase(w, g, f, to), s) && Grown(w, g, WithBase(w, g, f, to))
    ensures DoneFor(w, WithBase(w, g, f, to), to, Base(f))
  {
    assert SoundAt(w, g, s);
    WithBaseOk(w, g, f, to);
    WithinBase(w, g, s, f, to);
  }

  lemma GrownRefl(w: World, g: Graph)
    requires Listed(w, g)
    ensures Grown(w, g, g)
  {
  }

  lemma GrownTwice(w: World, g: Graph, g2: Graph, g3: Graph)
    requires Grown(w, g, g2) && Grown(w, g2, g3)
    ensures Grown(w, g, g3)
  {
    forall n: NodeId ensures GrownAt(w, g, g3, n) {
      assert GrownAt(w, g, g2, n) && GrownAt(w, g2, g3, n);
    }
  }

  /** to starts with from, and is no longer unless it has entries that from has not. */
  ghost predicate Stretched(from: seq<Use>, to: seq<Use>) {
    |from| <= |to| && to[..|from|] == from && Entries(from) <= Entries(to) &&
      (Entries(to) == Entries(from) ==> to == from)
  }

  /** What goes on the worklist when n points at a new object. */
  ghost function NewUses(w: World, g: Graph, n: NodeId): set<Use>
    requires Listed(w, g) && n in w.kinds
  {
    if IsLocal(w, n) then UseSet(g, n) else FieldUses(w, g, n)
  }

  /** Processing a new edge to o puts only due entries on the worklist. */
  lemma NewUsesDue(w: World, g: Graph, s: Facts, o: NodeId, n: NodeId, from: seq<Use>, to: seq<Use>)
    requires Sound(w, g, s) && IsObject(w, o) && IsPointer(w, n) && (n, o) in s.points && AllDue(w, s, o, from)
    requires Extended(from, to, NewUses(w, g, n))
    ensures AllDue(w, s, o, to) && Stretched(from, to)
  {
    assert SoundAt(w, g, s);
    forall u | u in NewUses(w, g, n) ensures Due(w, s, o, u) {
      if IsLocal(w, n) {
        UsesDue(w, g, s, o, n, u);
      } else {
        FieldUsesDue(w, g, s, o, n, u);
      }
    }
    ExtendedDue(w, s, o, from, to, NewUses(w, g, n));
  }

  /** The worklist holds all that must follow from n pointing at o. */
  ghost predicate Queued(w: World, g: Graph, n: NodeId, worklist: seq<Use>)
    requires Listed(w, g)
  {
    n in w.kinds ==> UseSet(g, n) <= Entries(worklist) && (IsOopField(w, n) ==> FieldUses(w, g, n) <= Entries(worklist))
  }

  ghost predicate QueuedFirst(w: World, g: Graph, us: seq<Use>, worklist: seq<Use>)
    requires Listed(w, g)
  {
    forall i :: 0 <= i < |us| ==> us[i].Val? && Queued(w, g, us[i].node, worklist)
  }

  lemma QueuedStays(w: World, g: Graph, us: seq<Use>, from: seq<Use>, to: seq<Use>)
    requires Listed(w, g) && QueuedFirst(w, g, us, from) && Stretched(from, to)
    ensures QueuedFirst(w, g, us, to)
  {
    forall i | 0 <= i < |us| ensures us[i].Val? && Queued(w, g, us[i].node, to) {
      assert Queued(w, g, us[i].node, from);
    }
  }

  /** The users of an object are pointers, which point at it. */
  lemma UserOfObject(w: World, g: Graph, s: Facts, o: NodeId, i: nat)
    requires Sound(w, g, s) && IsObject(w, o) && i < |g.uses[o]|
    ensures g.uses[o][i].Val? && IsPointer(w, g.uses[o][i].node) && (g.uses[o][i].node, o) in s.points
  {
    assert SoundAt(w, g, s);
    var u := g.uses[o][i];
    assert NodeOk(w, g, o);
    assert PairOk(w, g, u.node, o) && PairOk(w, g, o, u.node);
    assert u in g.uses[o];
    assert (u.node, o) in FactsOf(w, g).points;
  }

  /** A worklist on which everything is done leaves nothing to propagate. */
  lemma QueuedIsClosed(w: World, g: Graph, o: NodeId, worklist: seq<Use>)
    requires GraphOk(w, g) && IsObject(w, o) && QueuedFirst(w, g, g.uses[o], worklist)
    requires forall i :: 0 <= i < |worklist| ==> DoneFor(w, g, o, worklist[i])
    ensures ClosedFor(w, FactsOf(w, g), o)
  {
    assert forall u :: u in Entries(worklist) ==> DoneFor(w, g, o, u);
    forall n: NodeId ensures Propagated(w, g, o, n) {
      if n in w.kinds && Val(n) in g.uses[o] {
        var i :| 0 <= i < |g.uses[o]| && g.uses[o][i] == Val(n);
        assert Queued(w, g, n, worklist);
        assert forall u :: u in g.uses[n] ==> u in UseSet(g, n);
      }
    }
    PropagatedIsClosed(w, g, o);
  }

  ghost predicate AllDone(w: World, g: Graph, o: NodeId, worklist: seq<Use>, l: nat)
    requires l <= |worklist|
  {
    Listed(w, g) && forall i :: 0 <= i < l ==> DoneFor(w, g, o, worklist[i])
  }

  lemma NextDone(w: World, g: Graph, g2: Graph, o: NodeId, from: seq<Use>, to: seq<Use>, l: nat)
    requires l < |from| && AllDone(w, g, o, from, l) && Grown(w, g, g2) && Stretched(from, to)
    requires DoneFor(w, g2, o, from[l])
    ensures AllDone(w, g2, o, to, l + 1)
  {
    forall i | 0 <= i < l + 1 ensures DoneFor(w, g2, o, to[i]) {
      assert to[i] == to[..|from|][i] == from[i];
      if i < l {
        DoneStays(w, g, g2, o, from[i]);
      }
    }
  }

  lemma DrainedIsClosed(w: World, g: Graph, o: NodeId, from: seq<Use>, to: seq<Use>)
    requires GraphOk(w, g) && IsObject(w, o) && QueuedFirst(w, g, g.uses[o], from) && Stretched(from, to)
    requires AllDone(w, g, o, to, |to|)
    ensures ClosedFor(w, FactsOf(w, g), o)
  {
    QueuedStays(w, g, g.uses[o], from, to);
    QueuedIsClosed(w, g, o, to);
  }

  lemma DueInUniverse(w: World, s: Facts, o: NodeId, worklist: seq<Use>)
    requires AllDue(w, s, o, worklist)
    ensures Entries(worklist) <= Universe(w)
  {
    forall u | u in worklist ensures u in Universe(w) {
      var i :| 0 <= i < |worklist| && worklist[i] == u;
      assert Due(w, s, o, worklist[i]);
    }
  }

  lemma StretchedTwice(a: seq<Use>, b: seq<Use>, c: seq<Use>)
    requires Stretched(a, b) && Stretched(b, c)
    ensures Stretched(a, c)
  {
    assert c[..|a|] == c[..|b|][..|a|];
  }

  const CG_BUILD_ITER_LIMIT: nat := 20

  ghost predicate ClosedForAll(w: World, g: Graph, objects: seq<NodeId>, k: nat)
    requires k <= |objects|
  {
    Listed(w, g) && forall i :: 0 <= i < k ==> ClosedFor(w, FactsOf(w, g), objects[i])
  }

  lemma ClosedNext(w: World, g: Graph, objects: seq<NodeId>, k: nat)
    requires k < |objects| && ClosedForAll(w, g, objects, k) && ClosedFor(w, FactsOf(w, g), objects[k])
    ensures ClosedForAll(w, g, objects, k + 1)
  {
  }

  /**
   * What comes from outside: for each call of find_non_escaped_objects, None if no object is left that does not
   * escape, else the fields whose value it finds unknown; the allocations; and the passes that time out.
   */
  datatype Oracle = Oracle(escaped: nat -> Option<seq<NodeId>>, allocations: set<NodeId>, timeout: nat -> bool)

  datatype Outcome = Saturated | Limit | Stop

  /** Some object search comes up empty, or some pass times out. */
  ghost predicate Stops(o: Oracle) {
    exists k: nat :: o.escaped(k).None? || o.timeout(k)
  }

  class ConnectionGraph {
    const w: World
    var edges: map<NodeId, seq<NodeId>>
    var uses: map<NodeId, seq<Use>>
    var bases: map<NodeId, seq<NodeId>>
    var unknownPtr: set<NodeId>
    var unknownBase: set<NodeId>
    var worklist: seq<Use>

    ghost function Now(): Graph
      reads this`edges, this`uses, this`bases, this`unknownPtr, this`unknownBase
    {
      Graph(edges, uses, bases, unknownPtr, unknownBase)
    }

    ghost predicate Valid()
      reads this`edges, this`uses, this`bases, this`unknownPtr, this`unknownBase
    {
      GraphOk(w, Now())
    }

    /** add_edge: an edge from a local or an oop field, with its use. */
    method AddEdge(from: NodeId, to: NodeId) returns (isNew: bool)
      requires Valid() && IsPointer(w, from) && to in w.kinds
      modifies this`edges, this`uses, this`unknownPtr
      ensures isNew == (to !in old(edges)[from])
      ensures Now() == if isNew then WithEdge(w, old(Now()), from, to) else old(Now())
    {
      FlagsTell(w, Now(), from);
      if to == w.phantom {
        if from in unknownPtr {
          return false;
        }
        unknownPtr := unknownPtr + {from};
      }
      isNew := to !in edges[from];
      if isNew {
        edges := edges[from := edges[from] + [to]];
        uses := uses[to := uses[to] + [Val(from)]];
      }
    }

    /** add_base: a base of a field, with the edge of the object or the base use of the local. */
    method AddBase(f: NodeId, to: NodeId) returns (isNew: bool)
      requires Valid() && f in w.kinds && w.kinds[f].Field? && (IsObject(w, to) || IsLocal(w, to))
      modifies this`edges, this`uses, this`bases, this`unknownBase
      ensures isNew == (to !in old(bases)[f])
      ensures Now() == if isNew then WithBase(w, old(Now()), f, to) else old(Now())
    {
      FlagsTell(w, Now(), f);
      if to == w.phantom {
        if f in unknownBase {
          return false;
        }
        unknownBase := unknownBase + {f};
      }
      isNew := to !in bases[f];
      if isNew {
        bases := bases[f := bases[f] + [to]];
        if to == w.nullObj {
          return;
        }
        if IsObject(w, to) {
          edges := edges[to := edges[to] + [f]];
        } else {
          uses := uses[to := uses[to] + [Base(f)]];
        }
      }
    }

    method AddToWorklist(u: Use)
      modifies this`worklist
      ensures Extended(old(worklist), worklist, {u})
    {
      if u !in worklist {
        worklist := worklist + [u];
      }
    }

    method AddUsesToWorklist(n: NodeId)
      requires n in uses
      modifies this`worklist
      ensures Extended(old(worklist), worklist, UseSet(Now(), n))
    {
      for i := 0 to |uses[n]|
        invariant Extended(old(worklist), worklist, Entries(uses[n][..i]))
      {
        ghost var before := worklist;
        AddToWorklist(uses[n][i]);
        ExtendedTwice(old(worklist), before, worklist, Entries(uses[n][..i]), {uses[n][i]});
        assert uses[n][..i + 1] == uses[n][..i] + [uses[n][i]];
        assert Entries(uses[n][..i + 1]) == Entries(uses[n][..i]) + {uses[n][i]};
      }
      assert uses[n][..|uses[n]|] == uses[n];
    }

    /** add_fields_to_worklist: the fields of base b that may be the same as u. */
    method AddFieldsToWorklist(u: NodeId, b: NodeId)
      requires b in uses && b in edges
      modifies this`worklist
      ensures Extended(old(worklist), worklist, Matching(w, u, FieldsOf(w, Now(), b)))
    {
      var fields := FieldsOf(w, Graph(edges, uses, bases, unknownPtr, unknownBase), b);
      for i := 0 to |fields|
        invariant Extended(old(worklist), worklist, Matching(w, u, fields[..i]))
      {
        ghost var before := worklist;
        assert fields[..i + 1] == fields[..i] + [fields[i]];
        if SameField(w, u, fields[i]) {
          AddToWorklist(Val(fields[i]));
          ExtendedTwice(old(worklist), before, worklist, Matching(w, u, fields[..i]), {Val(fields[i])});
          assert Matching(w, u, fields[..i + 1]) == Matching(w, u, fields[..i]) + {Val(fields[i])};
        } else {
          assert Matching(w, u, fields[..i + 1]) == Matching(w, u, fields[..i]);
        }
      }
      assert fields[..|fields|] == fields;
    }

    /** The fields related to u by base b. */
    method AddRelated(u: NodeId, b: NodeId, ghost g: Graph)
      requires g == Now() && GraphOk(w, g) && u in w.kinds && b in g.bases[u]
      modifies this`worklist
      ensures Extended(old(worklist), worklist, RelatedUses(w, g, u, b))
    {
      MatchingIsRelated(w, g, u, b);
      AddFieldsToWorklist(u, b);
    }

    /** The fields related to u by all of its bases. */
    method AddAllRelated(u: NodeId, ghost g: Graph)
      requires g == Now() && GraphOk(w, g) && u in w.kinds
      modifies this`worklist
      ensures Extended(old(worklist), worklist, RelatedSoFar(w, g, u, g.bases[u]))
    {
      var bs := bases[u];
      ghost var start, added := worklist, {};
      RelatedEnds(w, g, u, bs);
      for i := 0 to |bs|
        invariant added == RelatedSoFar(w, g, u, bs[..i]) && Extended(start, worklist, added)
      {
        RelatedNext(w, g, u, bs, i);
        ghost var before, more := worklist, RelatedUses(w, g, u, bs[i]);
        AddRelated(u, bs[i], g);
        ExtendedTwice(start, before, worklist, added, more);
        added := added + more;
      }
    }

    /** add_field_uses_to_worklist: the uses of field u and all related fields. */
    method AddFieldUsesToWorklist(u: NodeId)
      requires Valid() && u in w.kinds
      modifies this`worklist
      ensures Extended(old(worklist), worklist, FieldUses(w, Now(), u))
    {
      AddUsesToWorklist(u);
      ghost var before := worklist;
      AddAllRelated(u, Now());
      ExtendedTwice(old(worklist), before, worklist, UseSet(Now(), u), RelatedSoFar(w, Now(), u, bases[u]));
      RelatedAll(w, Now(), u);
    }

    method AddNewUses(n: NodeId, ghost g: Graph)
      requires g == Now() && GraphOk(w, g) && IsPointer(w, n)
      modifies this`worklist
      ensures Extended(old(worklist), worklist, NewUses(w, g, n))
    {
      if w.kinds[n].LocalVar? {
        AddUsesToWorklist(n);
      } else {
        AddFieldUsesToWorklist(n);
      }
    }

    /** A step that goes from g to g2 and makes u done for o. */
    ghost predicate Stepped(s: Facts, o: NodeId, u: Use, g: Graph, g2: Graph) {
      Sound(w, g2, s) && Grown(w, g, g2) && DoneFor(w, g2, o, u)
    }

    /** The uses of n, which newly points at o, go on the worklist. */
    method SpreadFrom(o: NodeId, n: NodeId, ghost s: Facts, ghost g: Graph)
      requires g == Now() && Sound(w, g, s) && IsObject(w, o) && IsPointer(w, n) && (n, o) in s.points
      requires AllDue(w, s, o, worklist)
      modifies this`worklist
      ensures AllDue(w, s, o, worklist) && Stretched(old(worklist), worklist)
    {
      assert SoundAt(w, g, s);
      AddNewUses(n, g);
      NewUsesDue(w, g, s, o, n, old(worklist), worklist);
    }

    /** n points at o. */
    method PointTo(o: NodeId, n: NodeId, ghost s: Facts) returns (isNew: bool)
      requires Sound(w, Now(), s) && IsObject(w, o) && IsPointer(w, n) && (n, o) in s.points
      modifies this`edges, this`uses, this`unknownPtr
      ensures Stepped(s, o, Val(n), old(Now()), Now()) && isNew == (o !in old(edges)[n])
      ensures !isNew ==> Now() == old(Now())
    {
      assert SoundAt(w, Now(), s);
      ghost var g := Now();
      GrownRefl(w, g);
      isNew := AddEdge(n, o);
      if isNew {
        EdgeSound(w, g, s, n, o);
        assert Stepped(s, o, Val(n), g, WithEdge(w, g, n, o));
      }
    }

    method BaseOn(o: NodeId, f: NodeId, ghost s: Facts) returns (isNew: bool)
      requires Sound(w, Now(), s) && IsObject(w, o) && f in w.kinds && w.kinds[f].Field? && (f, o) in s.based
      modifies this`edges, this`uses, this`bases, this`unknownBase
      ensures Stepped(s, o, Base(f), old(Now()), Now())
      ensures !isNew ==> Now() == old(Now())
    {
      assert SoundAt(w, Now(), s);
      ghost var g := Now();
      GrownRefl(w, g);
      isNew := AddBase(f, o);
      if isNew {
        BaseSound(w, g, s, f, o);
        assert Stepped(s, o, Base(f), g, WithBase(w, g, f, o));
      }
    }

    /** n points at o, and if that is new, so may others. */
    method PointAt(o: NodeId, n: NodeId, ghost s: Facts) returns (isNew: bool)
      requires Sound(w, Now(), s) && IsObject(w, o) && IsPointer(w, n) && (n, o) in s.points
      requires AllDue(w, s, o, worklist)
      modifies this
      ensures Stepped(s, o, Val(n), old(Now()), Now()) && isNew == (o !in old(edges)[n])
      ensures AllDue(w, s, o, worklist) && Stretched(old(worklist), worklist)
      ensures !isNew ==> Now() == old(Now()) && worklist == old(worklist)
    {
      isNew := PointTo(o, n, s);
      ghost var g := Now();
      if isNew {
        SpreadFrom(o, n, s, g);
      }
      assert Now() == g;
    }

    /** One worklist entry. */
    method ProcessUse(o: NodeId, u: Use, ghost s: Facts) returns (isNew: bool)
      requires Sound(w, Now(), s) && IsObject(w, o) && Due(w, s, o, u) && AllDue(w, s, o, worklist)
      modifies this
      ensures Stepped(s, o, u, old(Now()), Now())
      ensures AllDue(w, s, o, worklist) && Stretched(old(worklist), worklist)
      ensures !isNew ==> Now() == old(Now()) && worklist == old(worklist)
    {
      if u.Base? {
        isNew := BaseOn(o, u.node, s);
        assert Base(u.node) == u;
      } else {
        isNew := PointAt(o, u.node, s);
        assert Val(u.node) == u;
      }
    }

    /** Puts on the worklist what must follow from n pointing at o. */
    method QueueUser(o: NodeId, n: NodeId, ghost s: Facts, ghost g: Graph)
      requires g == Now() && Sound(w, g, s) && IsObject(w, o) && IsPointer(w, n) && (n, o) in s.points
      requires AllDue(w, s, o, worklist)
      modifies this`worklist
      ensures AllDue(w, s, o, worklist) && Stretched(old(worklist), worklist) && Queued(w, g, n, worklist)
    {
      assert SoundAt(w, g, s);
      // The uses of a field are among its field uses.
      AddNewUses(n, g);
      NewUsesDue(w, g, s, o, n, old(worklist), worklist);
    }

    /** Populates the worklist by uses of the object's uses. */
    method Populate(o: NodeId, ghost s: Facts, ghost g: Graph)
      requires g == Now() && Sound(w, g, s) && IsObject(w, o) && AllDue(w, s, o, worklist)
      modifies this`worklist
      ensures AllDue(w, s, o, worklist) && QueuedFirst(w, g, g.uses[o], worklist)
    {
      var us := uses[o];
      for i := 0 to |us|
        invariant AllDue(w, s, o, worklist) && QueuedFirst(w, g, us[..i], worklist)
      {
        UserOfObject(w, g, s, o, i);
        ghost var before := worklist;
        QueueUser(o, us[i].node, s, g);
        QueuedStays(w, g, us[..i], before, worklist);
        assert us[..i + 1] == us[..i] + [us[i]];
      }
      assert us[..|us|] == us;
    }

    /** Processes the worklist, which may grow meanwhile, to its end. */
    method DrainWorklist(o: NodeId, ghost s: Facts) returns (newEdges: nat)
      requires Sound(w, Now(), s) && IsObject(w, o) && AllDue(w, s, o, worklist)
      modifies this
      ensures Sound(w, Now(), s) && Grown(w, old(Now()), Now())
      ensures Stretched(old(worklist), worklist) && AllDone(w, Now(), o, worklist, |worklist|)
      ensures newEdges == 0 ==> Now() == old(Now())
    {
      newEdges := 0;
      GrownRefl(w, Now());
      ghost var g0, wl0 := Now(), worklist;
      var l := 0;
      while l < |worklist|
        invariant l <= |worklist| && Sound(w, Now(), s) && Grown(w, g0, Now()) && AllDue(w, s, o, worklist)
        invariant Stretched(wl0, worklist) && AllDone(w, Now(), o, worklist, l)
        invariant newEdges == 0 ==> Now() == g0
        decreases Universe(w) - Entries(worklist), |worklist| - l
      {
        ghost var g, wl := Now(), worklist;
        assert Due(w, s, o, worklist[l]);
        var isNew := ProcessUse(o, worklist[l], s);
        NextDone(w, g, Now(), o, wl, worklist, l);
        GrownTwice(w, g0, g, Now());
        StretchedTwice(wl0, wl, worklist);
        DueInUniverse(w, s, o, worklist);
        l := l + 1;
        if isNew {
          newEdges := newEdges + 1;
        }
      }
    }

    /**
     * add_java_object_edges: adds references to o to all uses of its uses.  If that adds nothing, and the
     * worklist was populated, there is nothing left to propagate for o.
     */
    method AddJavaObjectEdges(o: NodeId, populate: bool, ghost s: Facts) returns (newEdges: nat)
      requires Sound(w, Now(), s) && IsObject(w, o) && AllDue(w, s, o, worklist)
      modifies this
      ensures Sound(w, Now(), s) && Grown(w, old(Now()), Now()) && worklist == []
      ensures newEdges == 0 ==> Now() == old(Now()) && (populate ==> ClosedFor(w, FactsOf(w, Now()), o))
    {
      if populate {
        newEdges := PopulateAndDrain(o, s);
      } else {
        newEdges := DrainWorklist(o, s);
      }
      ghost var g := Now();
      worklist := [];
      assert Now() == g;
    }

    method PopulateAndDrain(o: NodeId, ghost s: Facts) returns (newEdges: nat)
      requires Sound(w, Now(), s) && IsObject(w, o) && AllDue(w, s, o, worklist)
      modifies this
      ensures Sound(w, Now(), s) && Grown(w, old(Now()), Now())
      ensures newEdges == 0 ==> Now() == old(Now()) && ClosedFor(w, FactsOf(w, Now()), o)
    {
      assert SoundAt(w, Now(), s);
      ghost var g := Now();
      Populate(o, s, g);
      ghost var wl := worklist;
      newEdges := DrainWorklist(o, s);
      if newEdges == 0 {
        DrainedIsClosed(w, g, o, wl, worklist);
      }
    }

    // ----- All objects -----

    /** References to phantom_obj that are queued are propagated first, then those to each object. */
    method PropagateAll(objects: seq<NodeId>, ghost s: Facts) returns (newEdges: nat)
      requires Sound(w, Now(), s) && AllDue(w, s, w.phantom, worklist)
      requires forall i :: 0 <= i < |objects| ==> IsObject(w, objects[i])
      modifies this
      ensures Sound(w, Now(), s) && Grown(w, old(Now()), Now()) && worklist == []
      ensures newEdges == 0 ==> Now() == old(Now()) && ClosedForAll(w, Now(), objects, |objects|)
    {
      ghost var g0 := Now();
      newEdges := AddJavaObjectEdges(w.phantom, false, s);
      for k := 0 to |objects|
        invariant Sound(w, Now(), s) && Grown(w, g0, Now()) && worklist == []
        invariant newEdges == 0 ==> Now() == g0 && ClosedForAll(w, Now(), objects, k)
      {
        ghost var g := Now();
        var n := AddJavaObjectEdges(objects[k], true, s);
        GrownTwice(w, g0, g, Now());
        newEdges := newEdges + n;
        if newEdges == 0 {
          ClosedNext(w, Now(), objects, k);
        }
      }
    }

    /** Field f gets an unknown value; what follows is queued. */
    method MakeUnknown(f: NodeId, ghost s: Facts) returns (isNew: bool)
      requires Sound(w, Now(), s) && AllDue(w, s, w.phantom, worklist) && IsOopField(w, f)
      modifies this
      ensures Sound(w, Now(), s) && Grown(w, old(Now()), Now()) && AllDue(w, s, w.phantom, worklist)
      ensures isNew == (w.phantom !in old(edges)[f]) && w.phantom in edges[f]
      ensures !isNew ==> Now() == old(Now()) && worklist == old(worklist)
    {
      assert SoundAt(w, Now(), s);
      isNew := PointAt(w.phantom, f, s);
    }

    /** What find_non_escaped_objects does to the graph: the fields it finds escaping become unknown. */
    method MakeEscapedUnknown(fields: seq<NodeId>, ghost s: Facts)
      requires Sound(w, Now(), s) && AllDue(w, s, w.phantom, worklist)
      modifies this
      ensures Sound(w, Now(), s) && Grown(w, old(Now()), Now()) && AllDue(w, s, w.phantom, worklist)
      ensures forall i :: 0 <= i < |fields| && IsOopField(w, fields[i]) ==>
        fields[i] in edges && w.phantom in edges[fields[i]]
    {
      ghost var g0 := Now();
      GrownRefl(w, g0);
      for i := 0 to |fields|
        invariant Sound(w, Now(), s) && Grown(w, g0, Now()) && AllDue(w, s, w.phantom, worklist)
        invariant forall k :: 0 <= k < i && IsOopField(w, fields[k]) ==>
          fields[k] in edges && w.phantom in edges[fields[k]]
      {
        if IsOopField(w, fields[i]) {
          ghost var g := Now();
          var _ := MakeUnknown(fields[i], s);
          forall k | 0 <= k < i && IsOopField(w, fields[k]) ensures w.phantom in edges[fields[k]] {
            assert GrownAt(w, g, Now(), fields[k]);
          }
          GrownTwice(w, g0, g, Now());
        }
      }
    }

    /** Some base is an allocation, whose fields have known values. */
    ghost predicate AllocatedBase(bs: seq<NodeId>, allocations: set<NodeId>) {
      exists k :: 0 <= k < |bs| && IsObject(w, bs[k]) && bs[k] in allocations
    }

    /** find_field_value: a field without a value, and without an allocation among its bases, is unknown. */
    method FindFieldValue(f: NodeId, allocations: set<NodeId>, ghost s: Facts) returns (newEdges: nat)
      requires Sound(w, Now(), s) && AllDue(w, s, w.phantom, worklist) && IsOopField(w, f)
      modifies this
      ensures Sound(w, Now(), s) && Grown(w, old(Now()), Now()) && AllDue(w, s, w.phantom, worklist)
      ensures newEdges == if AllocatedBase(old(bases)[f], allocations) || w.phantom in old(edges)[f] then 0 else 1
      ensures !AllocatedBase(old(bases)[f], allocations) ==> w.phantom in edges[f]
      ensures newEdges == 0 ==> Now() == old(Now()) && worklist == old(worklist)
    {
      GrownRefl(w, Now());
      newEdges := 0;
      for i := 0 to |bases[f]|
        invariant forall k :: 0 <= k < i ==> !(IsObject(w, bases[f][k]) && bases[f][k] in allocations)
      {
        if IsObject(w, bases[f][i]) && bases[f][i] in allocations {
          return;
        }
      }
      var isNew := MakeUnknown(f, s);
      newEdges := if isNew then 1 else 0;
    }

    /** The state between passes: sound, with queued references to phantom_obj only. */
    ghost predicate Ready(objects: seq<NodeId>, s: Facts)
      reads this
    {
      && Sound(w, Now(), s) && AllDue(w, s, w.phantom, worklist)
      && forall i :: 0 <= i < |objects| ==> IsObject(w, objects[i])
    }

    /** Passes over all objects, until one adds nothing, no object is left, or a limit is hit. */
    method Saturate(objects: seq<NodeId>, oracle: Oracle, iterations0: nat, ghost s: Facts)
      returns (iterations: nat, outcome: Outcome)
      requires Ready(objects, s)
      modifies this
      ensures Ready(objects, s) && Grown(w, old(Now()), Now())
      ensures iterations0 < iterations && (outcome.Limit? ==> iterations > CG_BUILD_ITER_LIMIT)
      ensures outcome.Saturated? ==> worklist == [] && ClosedForAll(w, Now(), objects, |objects|)
      ensures outcome.Stop? ==> Stops(oracle)
    {
      ghost var g0 := Now();
      GrownRefl(w, g0);
      iterations := iterations0;
      while iterations < CG_BUILD_ITER_LIMIT
        invariant Ready(objects, s) && Grown(w, g0, Now()) && iterations0 <= iterations
      {
        iterations := iterations + 1;
        ghost var g := Now();
        var newEdges := PropagateAll(objects, s);
        GrownTwice(w, g0, g, Now());
        if oracle.timeout(iterations) {
          return iterations, Stop;
        }
        if newEdges == 0 {
          return iterations, Saturated;
        }
        match oracle.escaped(iterations)
        case None => return iterations, Stop;
        case Some(fields) =>
          g := Now();
          MakeEscapedUnknown(fields, s);
          GrownTwice(w, g0, g, Now());
      }
      // The failing test counts as well.
      iterations := iterations + 1;
      outcome := Limit;
    }

    /** Every field has some value, or an allocation as a base that has one. */
    ghost predicate AllValued(fields: seq<NodeId>, allocations: set<NodeId>)
      reads this`edges, this`bases
    {
      forall i :: 0 <= i < |fields| ==>
        && fields[i] in edges && fields[i] in bases
        && (edges[fields[i]] != [] || AllocatedBase(bases[fields[i]], allocations))
    }

    /** Fields that have no value at all and can hold anything. */
    method FindFieldValues(objects: seq<NodeId>, oopFields: seq<NodeId>, allocations: set<NodeId>, ghost s: Facts)
      returns (newEdges: nat)
      requires Ready(objects, s) && forall i :: 0 <= i < |oopFields| ==> IsOopField(w, oopFields[i])
      modifies this
      ensures Ready(objects, s) && Grown(w, old(Now()), Now())
      ensures newEdges == 0 ==> Now() == old(Now()) && worklist == old(worklist) && AllValued(oopFields, allocations)
    {
      ghost var g0 := Now();
      GrownRefl(w, g0);
      newEdges := 0;
      for i := 0 to |oopFields|
        invariant Ready(objects, s) && Grown(w, g0, Now())
        invariant newEdges == 0 ==> Now() == g0 && worklist == old(worklist) && AllValued(oopFields[..i], allocations)
      {
        assert oopFields[..i + 1] == oopFields[..i] + [oopFields[i]];
        if edges[oopFields[i]] == [] {
          ghost var g := Now();
          var n := FindFieldValue(oopFields[i], allocations, s);
          GrownTwice(w, g0, g, Now());
          newEdges := newEdges + n;
        }
      }
      assert oopFields[..|oopFields|] == oopFields;
    }

    /** The rounds of complete_connection_graph. */
    method CompleteRounds(objects: seq<NodeId>, oopFields: seq<NodeId>, oracle: Oracle, ghost s: Facts)
      returns (ok: bool, iterations: nat)
      requires Ready(objects, s) && worklist == [] && forall i :: 0 <= i < |oopFields| ==> IsOopField(w, oopFields[i])
      modifies this
      ensures Sound(w, Now(), s) && Grown(w, old(Now()), Now())
      ensures ok ==> ClosedForAll(w, Now(), objects, |objects|) && AllValued(oopFields, oracle.allocations)
      ensures !ok ==> iterations >= CG_BUILD_ITER_LIMIT || Stops(oracle)
    {
      ghost var g0 := Now();
      GrownRefl(w, g0);
      iterations := 0;
      if oracle.escaped(0).None? {
        return false, 0;
      }
      MakeEscapedUnknown(oracle.escaped(0).value, s);
      while true
        invariant Ready(objects, s) && Grown(w, g0, Now()) && iterations <= CG_BUILD_ITER_LIMIT
        decreases CG_BUILD_ITER_LIMIT + 1 - iterations
      {
        ghost var g := Now();
        var outcome;
        iterations, outcome := Saturate(objects, oracle, iterations, s);
        GrownTwice(w, g0, g, Now());
        if !outcome.Saturated? || iterations >= CG_BUILD_ITER_LIMIT {
          return false, iterations;
        }
        g := Now();
        var newEdges := FindFieldValues(objects, oopFields, oracle.allocations, s);
        GrownTwice(w, g0, g, Now());
        if newEdges == 0 {
          return true, iterations;
        }
      }
    }

    /**
     * complete_connection_graph, up to the initial values of fields: if no limit is hit, all references to all
     * objects have been propagated; and whatever closed facts s the graph started with, it has no others about
     * objects that are known.
     */
    method CompleteGraph(objects: seq<NodeId>, oopFields: seq<NodeId>, oracle: Oracle, ghost s: Facts)
      returns (ok: bool, iterations: nat)
      requires GraphOk(w, Now()) && Within(FactsOf(w, Now()), s) && Closed(w, s) && OnlyPointers(w, s) && worklist == []
      requires forall o :: IsObject(w, o) <==> o in objects
      requires forall i :: 0 <= i < |oopFields| ==> IsOopField(w, oopFields[i])
      modifies this
      ensures GraphOk(w, Now()) && Grown(w, old(Now()), Now()) && WithinKnown(w, FactsOf(w, Now()), s)
      ensures ok ==> Closed(w, FactsOf(w, Now())) && AllValued(oopFields, oracle.allocations)
      ensures ok ==> forall u: NodeId, f: NodeId, b: NodeId, k: int, o: NodeId ::
        Covers(w, u, k) && Covers(w, f, k) && b in bases[u] && b in bases[f] && b != w.phantom && b != w.nullObj &&
        IsObject(w, o) && o in edges[u] ==>
          o in edges[f]
      ensures !ok ==> iterations >= CG_BUILD_ITER_LIMIT || Stops(oracle)
    {
      ghost var more := WithUnknown(w, s);
      WithUnknownCloses(w, s);
      assert SoundAt(w, Now(), more);
      ok, iterations := CompleteRounds(objects, oopFields, oracle, more);
      assert SoundAt(w, Now(), more);
      KnownWithin(w, FactsOf(w, Now()), s);
      if ok {
        AllClosed(w, Now(), objects);
        FieldsAgreeAll(w, Now());
      }
    }
  }

  /** Facts are about what locals and fields point at, and about the bases of nodes. */
  ghost predicate OnlyPointers(w: World, s: Facts) {
    && (forall a: NodeId, b: NodeId :: (a, b) in s.points ==> a in w.kinds && !IsObject(w, a))
    && (forall f: NodeId, b: NodeId :: (f, b) in s.based ==> f in w.kinds)
  }

  /** The facts of s, and that anything may be unknown. */
  ghost function WithUnknown(w: World, s: Facts): Facts {
    Facts(s.points + (set a | a in w.kinds && !IsObject(w, a) :: (a, w.phantom)),
          s.based + (set a | a in w.kinds :: (a, w.phantom)))
  }

  /** Every fact of s, except about the unknown object, is one of s2. */
  ghost predicate WithinKnown(w: World, s: Facts, s2: Facts) {
    && (forall a: NodeId, o: NodeId :: (a, o) in s.points && o != w.phantom ==> (a, o) in s2.points)
    && (forall f: NodeId, o: NodeId :: (f, o) in s.based && o != w.phantom ==> (f, o) in s2.based)
  }

  lemma KnownWithin(w: World, s: Facts, s2: Facts)
    requires Within(s, WithUnknown(w, s2))
    ensures WithinKnown(w, s, s2)
  {
    forall a: NodeId, o: NodeId | (a, o) in s.points && o != w.phantom ensures (a, o) in s2.points {
      assert (a, o) in WithUnknown(w, s2).points;
    }
    forall f: NodeId, o: NodeId | (f, o) in s.based && o != w.phantom ensures (f, o) in s2.based {
      assert (f, o) in WithUnknown(w, s2).based;
    }
  }

  /** Letting anything be unknown forces nothing new about known objects. */
  lemma WithUnknownCloses(w: World, s: Facts)
    requires WorldOk(w) && Closed(w, s) && OnlyPointers(w, s)
    ensures Closed(w, WithUnknown(w, s)) && AllowsUnknown(w, WithUnknown(w, s)) && Within(s, WithUnknown(w, s))
  {
    var more := WithUnknown(w, s);
    forall o | IsObject(w, o) ensures ClosedFor(w, more, o) {
      assert ClosedFor(w, s, o);
      forall v: NodeId, u: NodeId ensures Deferred(w, more, v, u, o) {
        assert Deferred(w, s, v, u, o);
      }
      forall f: NodeId, l: NodeId ensures Based(w, more, f, l, o) {
        assert Based(w, s, f, l, o);
      }
      forall u: NodeId, f: NodeId, b: NodeId ensures Shared(w, more, u, f, b, o) {
        assert Shared(w, s, u, f, b, o);
      }
    }
  }

  lemma FieldsAgreeAll(w: World, g: Graph)
    requires GraphOk(w, g) && Closed(w, FactsOf(w, g))
    ensures forall u: NodeId, f: NodeId, b: NodeId, k: int, o: NodeId ::
      Covers(w, u, k) && Covers(w, f, k) && b in g.bases[u] && b in g.bases[f] && b != w.phantom && b != w.nullObj &&
      IsObject(w, o) && o in g.edges[u] ==>
        o in g.edges[f]
  {
    forall u: NodeId, f: NodeId, b: NodeId, k: int, o: NodeId |
      Covers(w, u, k) && Covers(w, f, k) && b in g.bases[u] && b in g.bases[f] && b != w.phantom && b != w.nullObj &&
      IsObject(w, o) && o in g.edges[u]
      ensures o in g.edges[f]
    {
      FieldsAgree(w, g, u, f, b, k, o);
    }
  }

  lemma AllClosed(w: World, g: Graph, objects: seq<NodeId>)
    requires ClosedForAll(w, g, objects, |objects|) && forall o :: IsObject(w, o) ==> o in objects
    ensures Closed(w, FactsOf(w, g))
  {
    forall o | IsObject(w, o) ensures ClosedFor(w, FactsOf(w, g), o) {
      var i :| 0 <= i < |objects| && objects[i] == o;
    }
  }
}
