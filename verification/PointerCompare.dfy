/**
 * Folding of pointer compares (opto/escape.cpp, optimize_ptr_compare): queries on
 * the finished connection graph, and what their answers say about run time values.
 */
module PointerCompare {
  import opened Wrappers
  import opened EscapeStates

  datatype Ideal = Allocate | CallStaticJava | Constant(ptrType: int) | OtherNode

  datatype Answer = Equal | NotEqual | DontKnow

  datatype Connections = Connections(
    g: Graph,
    edges: seq<seq<NodeId>>,
    states: seq<State>,
    ideal: seq<Ideal>)

  /** The null object is a constant; so is the unknown object, which the top constant stands for and which escapes. */
  ghost predicate WellFormedGraph(c: Connections) {
    && WellFormed(c.g, c.edges) && |c.states| == |c.g.kinds| == |c.ideal|
    && c.g.kinds[c.g.nullObj].JavaObject? && c.g.kinds[c.g.phantom].JavaObject?
    && c.ideal[c.g.nullObj].Constant? && c.ideal[c.g.phantom].Constant?
    && c.states[c.g.phantom].escape == GLOBAL_ESCAPE
  }

  predicate IsNode(c: Connections, n: NodeId) {
    n < |c.g.kinds| == |c.edges| == |c.states| == |c.ideal|
  }

  predicate IsObject(c: Connections, n: NodeId) {
    IsNode(c, n) && c.g.kinds[n].JavaObject?
  }

  /** o is a Java object that n may point to; an object points to itself. */
  predicate Target(c: Connections, n: NodeId, o: NodeId)
    requires IsNode(c, n)
  {
    IsObject(c, o) && if c.g.kinds[n].JavaObject? then o == n else o in c.edges[n]
  }

  /** An allocation, or the result of a call, that does not escape. */
  predicate NonEscapingAllocation(c: Connections, o: NodeId)
    requires IsNode(c, o)
  {
    c.states[o].escape == NO_ESCAPE && (c.ideal[o].Allocate? || c.ideal[o].CallStaticJava?)
  }

  // ----- Queries -----

  method PointsTo(c: Connections, n: NodeId, o: NodeId) returns (r: bool)
    requires WellFormedGraph(c) && IsNode(c, n) && IsObject(c, o)
    ensures r <==> Target(c, n, o)
  {
    if c.g.kinds[n].JavaObject? {
      return n == o;
    }
    var i := 0;
    while i < |c.edges[n]|
      invariant 0 <= i <= |c.edges[n]| && forall j :: 0 <= j < i ==> c.edges[n][j] != o
    {
      if c.edges[n][i] == o {
        return true;
      }
      i := i + 1;
    }
    return false;
  }

  /** unique_java_object: the only object n may point to, if there is just one. */
  method UniqueJavaObject(c: Connections, n: NodeId) returns (r: Option<NodeId>)
    requires WellFormedGraph(c) && IsNode(c, n)
    ensures r.Some? ==> Target(c, n, r.value) && forall o :: Target(c, n, o) ==> o == r.value
    ensures r.None? ==> forall o :: Target(c, n, o) ==> exists o' :: Target(c, n, o') && o' != o
  {
    if c.g.kinds[n].JavaObject? {
      return Some(n);
    }
    r := None;
    var i := 0;
    while i < |c.edges[n]|
      invariant 0 <= i <= |c.edges[n]|
      invariant r.Some? ==> Target(c, n, r.value)
      invariant forall j :: 0 <= j < i && c.g.kinds[c.edges[n][j]].JavaObject? ==> r == Some(c.edges[n][j])
    {
      var e := c.edges[n][i];
      if c.g.kinds[e].JavaObject? {
        if r.None? {
          r := Some(e);
        } else if r != Some(e) {
          assert Target(c, n, r.value) && Target(c, n, e);
          return None;
        }
      }
      i := i + 1;
    }
  }

  /** non_escaping_allocation: n points only to non-escaping allocations. */
  method OnlyNonEscaping(c: Connections, n: NodeId) returns (r: bool)
    requires WellFormedGraph(c) && IsNode(c, n)
    ensures r <==> forall o :: Target(c, n, o) ==> NonEscapingAllocation(c, o)
  {
    if c.g.kinds[n].JavaObject? {
      assert Target(c, n, n);
      return NonEscapingAllocation(c, n);
    }
    var i := 0;
    while i < |c.edges[n]|
      invariant 0 <= i <= |c.edges[n]|
      invariant forall j :: 0 <= j < i && c.g.kinds[c.edges[n][j]].JavaObject? ==>
        NonEscapingAllocation(c, c.edges[n][j])
    {
      var e := c.edges[n][i];
      if c.g.kinds[e].JavaObject? && !NonEscapingAllocation(c, e) {
        assert Target(c, n, e);
        return false;
      }
      i := i + 1;
    }
    return true;
  }

  /** The nodes that n refers to directly; an object refers to itself. */
  ghost function Referents(c: Connections, n: NodeId): set<NodeId>
    requires IsNode(c, n)
  {
    if c.g.kinds[n].JavaObject? then {n} else set x | x in c.edges[n]
  }

  ghost predicate Meets(c: Connections, n: NodeId, m: NodeId)
    requires IsNode(c, n) && IsNode(c, m)
  {
    n == m || exists x :: x in Referents(c, n) && x in Referents(c, m)
  }

  /** meet: true exactly if the nodes are the same or refer to a common node, which every common target is. */
  method Meet(c: Connections, n: NodeId, m: NodeId) returns (r: bool)
    requires WellFormedGraph(c) && IsNode(c, n) && IsNode(c, m)
    ensures r <==> Meets(c, n, m)
    ensures !r ==> forall o :: Target(c, n, o) ==> !Target(c, m, o)
  {
    assert forall o :: Target(c, n, o) ==> o in Referents(c, n);
    assert forall o :: Target(c, m, o) ==> o in Referents(c, m);
    if n == m {
      return true;
    } else if c.g.kinds[m].JavaObject? {
      r := PointsTo(c, n, m);
      assert m in Referents(c, m);
      return;
    } else if c.g.kinds[n].JavaObject? {
      r := PointsTo(c, m, n);
      assert n in Referents(c, n);
      return;
    }
    var i := 0;
    while i < |c.edges[n]|
      invariant 0 <= i <= |c.edges[n]| && forall k :: 0 <= k < i ==> c.edges[n][k] !in c.edges[m]
    {
      if c.edges[n][i] in c.edges[m] {
        assert c.edges[n][i] in Referents(c, n) && c.edges[n][i] in Referents(c, m);
        return true;
      }
      i := i + 1;
    }
    return false;
  }

  // ----- Run time values -----

  datatype Value = Null | Ref(address: nat)

  /** The run time values an object of the graph stands for. */
  type Meaning = map<NodeId, iset<Value>>

  /** An object that nothing outside knows of. */
  ghost predicate IsFresh(c: Connections, o: NodeId) {
    IsObject(c, o) && c.states[o].escape == NO_ESCAPE && (c.ideal[o].Allocate? || c.ideal[o].CallStaticJava?)
  }

  /** A constant of the program, which the unknown object is not although its node is a constant. */
  ghost predicate IsKnownConstant(c: Connections, o: NodeId) {
    IsObject(c, o) && c.ideal[o].Constant? && o != c.g.phantom
  }

  /**
   * An allocation, or the result of a call, that does not escape stands for references that nothing else stands for,
   * the unknown object included.  Any other object may share its values with the unknown one.
   */
  ghost predicate AllocationsApart(m: Meaning, c: Connections)
    requires WellFormedGraph(c) && forall o :: IsObject(c, o) ==> o in m
  {
    forall o: NodeId, o': NodeId :: IsFresh(c, o) && IsObject(c, o') && o' != o ==> m[o] !! m[o']
  }

  /** Constants stand for one value each, different ones for constants of different types. */
  ghost predicate ConstantsApart(m: Meaning, c: Connections)
    requires WellFormedGraph(c) && forall o :: IsObject(c, o) ==> o in m
  {
    forall o: NodeId, o': NodeId :: IsKnownConstant(c, o) && IsKnownConstant(c, o') ==>
      if c.ideal[o].ptrType == c.ideal[o'].ptrType then SameSingleValue(m, o, o') else m[o] !! m[o']
  }

  /** The null object stands for null; the unknown object for anything but non-escaping allocations, null included. */
  ghost predicate Concretises(m: Meaning, c: Connections)
    requires WellFormedGraph(c)
  {
    && (forall o :: IsObject(c, o) ==> o in m)
    && m[c.g.nullObj] == iset{Null}
    && AllocationsApart(m, c) && ConstantsApart(m, c)
  }

  ghost predicate SameSingleValue(m: Meaning, o: NodeId, o': NodeId)
    requires o in m && o' in m
  {
    forall v, v' :: v in m[o] && v' in m[o'] ==> v == v'
  }

  /** v is a value that node n may have. */
  ghost predicate MayBe(m: Meaning, c: Connections, n: NodeId, v: Value)
    requires WellFormedGraph(c) && IsNode(c, n) && Concretises(m, c)
  {
    exists o :: Target(c, n, o) && v in m[o]
  }

  ghost predicate NeverEqual(c: Connections, n1: NodeId, n2: NodeId)
    requires WellFormedGraph(c) && IsNode(c, n1) && IsNode(c, n2)
  {
    forall m, v1, v2 :: Concretises(m, c) && MayBe(m, c, n1, v1) && MayBe(m, c, n2, v2) ==> v1 != v2
  }

  /** Targets that are non-escaping allocations on one side and no targets on the other keep the values apart. */
  lemma ApartByAllocation(c: Connections, n1: NodeId, n2: NodeId)
    requires WellFormedGraph(c) && IsNode(c, n1) && IsNode(c, n2)
    requires forall o :: Target(c, n1, o) ==> IsFresh(c, o) && !Target(c, n2, o)
    ensures NeverEqual(c, n1, n2) && NeverEqual(c, n2, n1)
  {
    forall m, v1, v2 | Concretises(m, c) && MayBe(m, c, n1, v1) && MayBe(m, c, n2, v2) ensures v1 != v2 {
      var o1 :| Target(c, n1, o1) && v1 in m[o1];
      var o2 :| Target(c, n2, o2) && v2 in m[o2];
      assert m[o1] !! m[o2];
    }
  }

  lemma ApartByConstant(c: Connections, n1: NodeId, n2: NodeId, o1: NodeId, o2: NodeId)
    requires WellFormedGraph(c) && IsNode(c, n1) && IsNode(c, n2) && Target(c, n1, o1) && Target(c, n2, o2)
    requires forall o :: Target(c, n1, o) ==> o == o1
    requires forall o :: Target(c, n2, o) ==> o == o2
    requires IsKnownConstant(c, o1) && IsKnownConstant(c, o2) && c.ideal[o1].ptrType != c.ideal[o2].ptrType
    ensures NeverEqual(c, n1, n2)
  {
    forall m, v1, v2 | Concretises(m, c) && MayBe(m, c, n1, v1) && MayBe(m, c, n2, v2) ensures v1 != v2 {
      assert v1 in m[o1] && v2 in m[o2];
    }
  }

  /** The values agree, unless both are instances of one non-escaping object that stands for several. */
  ghost predicate EqualOrInstances(c: Connections, n1: NodeId, n2: NodeId)
    requires WellFormedGraph(c) && IsNode(c, n1) && IsNode(c, n2)
  {
    forall m, v1, v2 :: Concretises(m, c) && MayBe(m, c, n1, v1) && MayBe(m, c, n2, v2) ==>
      v1 == v2 || SameInstanceOf(m, c, n1, n2, v1, v2)
  }

  /** The values are instances of one object, which does not escape, that both nodes may refer to. */
  ghost predicate SameInstanceOf(m: Meaning, c: Connections, n1: NodeId, n2: NodeId, v1: Value, v2: Value)
    requires WellFormedGraph(c) && IsNode(c, n1) && IsNode(c, n2) && Concretises(m, c)
  {
    exists o: NodeId :: Target(c, n1, o) && Target(c, n2, o) && c.states[o].escape == NO_ESCAPE && v1 in m[o] &&
      v2 in m[o]
  }

  lemma EqualByObject(c: Connections, n1: NodeId, n2: NodeId, o1: NodeId, o2: NodeId)
    requires WellFormedGraph(c) && IsNode(c, n1) && IsNode(c, n2) && Target(c, n1, o1) && Target(c, n2, o2)
    requires forall o :: Target(c, n1, o) ==> o == o1
    requires forall o :: Target(c, n2, o) ==> o == o2
    requires (o1 == o2 && c.states[o1].escape == NO_ESCAPE) ||
      (IsKnownConstant(c, o1) && IsKnownConstant(c, o2) && c.ideal[o1].ptrType == c.ideal[o2].ptrType)
    ensures EqualOrInstances(c, n1, n2)
  {
    forall m, v1, v2 | Concretises(m, c) && MayBe(m, c, n1, v1) && MayBe(m, c, n2, v2)
      ensures v1 == v2 || SameInstanceOf(m, c, n1, n2, v1, v2)
    {
      assert v1 in m[o1] && v2 in m[o2];
    }
  }

  // ----- The fold -----

  /** o is the only object that n refers to. */
  ghost predicate Only(c: Connections, n: NodeId, o: NodeId)
    requires IsNode(c, n)
  {
    Target(c, n, o) && forall o' :: Target(c, n, o') ==> o' == o
  }

  ghost predicate FreshOnly(c: Connections, n: NodeId)
    requires IsNode(c, n)
  {
    forall o :: Target(c, n, o) ==> IsFresh(c, o)
  }

  /** n refers to one object, which is fresh and not a target of m. */
  ghost predicate OneApart(c: Connections, n: NodeId, m: NodeId)
    requires IsNode(c, n) && IsNode(c, m)
  {
    exists o :: Only(c, n, o) && IsFresh(c, o) && !Target(c, m, o)
  }

  ghost predicate SameObject(c: Connections, n: NodeId, m: NodeId)
    requires IsNode(c, n) && IsNode(c, m)
  {
    exists o: NodeId :: Only(c, n, o) && Only(c, m, o) && c.states[o].escape == NO_ESCAPE
  }

  /** Both nodes refer to one known constant each, of one type or of two. */
  ghost predicate Constants(c: Connections, n: NodeId, m: NodeId, same: bool)
    requires IsNode(c, n) && IsNode(c, m)
  {
    exists o1: NodeId, o2: NodeId ::
      Only(c, n, o1) && Only(c, m, o2) && IsKnownConstant(c, o1) && IsKnownConstant(c, o2) &&
      same == (c.ideal[o1].ptrType == c.ideal[o2].ptrType)
  }

  /** Nodes that are found equal are not apart. */
  lemma EqualIsNotApart(c: Connections, n: NodeId, m: NodeId)
    requires WellFormedGraph(c) && IsNode(c, n) && IsNode(c, m) && (SameObject(c, n, m) || Constants(c, n, m, true))
    ensures Meets(c, n, m) || !(FreshOnly(c, n) || FreshOnly(c, m))
  {
    if SameObject(c, n, m) {
      var o: NodeId :| Only(c, n, o) && Only(c, m, o);
      assert o in Referents(c, n) && o in Referents(c, m);
    } else {
      var o1: NodeId, o2: NodeId :| Only(c, n, o1) && Only(c, m, o2) && IsKnownConstant(c, o1) &&
        IsKnownConstant(c, o2);
      assert !IsFresh(c, o1) && !IsFresh(c, o2);
    }
  }

  /** The simple cases on unique objects. */
  method CompareUnique(c: Connections, n1: NodeId, n2: NodeId, u1: Option<NodeId>, u2: Option<NodeId>)
    returns (answer: Answer)
    requires WellFormedGraph(c) && IsNode(c, n1) && IsNode(c, n2)
    requires if u1.Some? then Only(c, n1, u1.value) else forall o :: !Only(c, n1, o)
    requires if u2.Some? then Only(c, n2, u2.value) else forall o :: !Only(c, n2, o)
    ensures answer == NotEqual ==> NeverEqual(c, n1, n2)
    ensures answer == Equal ==> EqualOrInstances(c, n1, n2)
    ensures answer == NotEqual <==> OneApart(c, n1, n2) || OneApart(c, n2, n1) || Constants(c, n1, n2, false)
    ensures answer == Equal <==> SameObject(c, n1, n2) || Constants(c, n1, n2, true)
  {
    if u1.Some? {
      if c.states[u1.value].escape == NO_ESCAPE {
        if u1 == u2 {
          // One object on both sides.
          EqualByObject(c, n1, n2, u1.value, u2.value);
          return Equal;
        }
        if NonEscapingAllocation(c, u1.value) {
          var hit := PointsTo(c, n2, u1.value);
          if !hit {
            ApartByAllocation(c, n1, n2);
            return NotEqual;
          }
        }
      }
    }
    if u2.Some? {
      if NonEscapingAllocation(c, u2.value) {
        var hit := PointsTo(c, n1, u2.value);
        if !hit {
          ApartByAllocation(c, n2, n1);
          return NotEqual;
        }
      }
    }
    if u1.Some? && u1.value != c.g.phantom && u2.Some? && u2.value != c.g.phantom
       && c.ideal[u1.value].Constant? && c.ideal[u2.value].Constant? {
      if c.ideal[u1.value].ptrType == c.ideal[u2.value].ptrType {
        EqualByObject(c, n1, n2, u1.value, u2.value);
        return Equal;
      } else {
        ApartByConstant(c, n1, n2, u1.value, u2.value);
        return NotEqual;
      }
    }
    return DontKnow;
  }

  /** Disjoint sets are unrelated when one of them has only non-escaping allocations. */
  method CompareSets(c: Connections, n1: NodeId, n2: NodeId) returns (answer: Answer)
    requires WellFormedGraph(c) && IsNode(c, n1) && IsNode(c, n2)
    ensures answer != Equal
    ensures answer == NotEqual ==> NeverEqual(c, n1, n2)
    ensures answer == NotEqual <==> !Meets(c, n1, n2) && (FreshOnly(c, n1) || FreshOnly(c, n2))
  {
    var met := Meet(c, n1, n2);
    if met {
      return DontKnow;
    }
    var unknown1 := PointsTo(c, n1, c.g.phantom);
    var unknown2 := PointsTo(c, n2, c.g.phantom);
    var null1 := PointsTo(c, n1, c.g.nullObj);
    var null2 := PointsTo(c, n2, c.g.nullObj);
    if (unknown1 && null2) || (unknown2 && null1) {
      // The unknown object may be null.
      return DontKnow;
    }
    if !unknown1 && !null1 {
      var only := OnlyNonEscaping(c, n1);
      if only {
        ApartByAllocation(c, n1, n2);
        return NotEqual;
      }
    }
    if !unknown2 && !null2 {
      var only := OnlyNonEscaping(c, n2);
      if only {
        ApartByAllocation(c, n2, n1);
        return NotEqual;
      }
    }
    return DontKnow;
  }

  /**
   * optimize_ptr_compare: an answer of NotEqual is right for every run time meaning of the graph, and it is given
   * whenever one side refers to fresh objects alone and the other shares no referent with it.
   */
  method OptimizePtrCompare(c: Connections, n1: NodeId, n2: NodeId) returns (answer: Answer)
    requires WellFormedGraph(c) && IsNode(c, n1) && IsNode(c, n2)
    ensures answer == NotEqual ==> NeverEqual(c, n1, n2)
    ensures answer == Equal ==> EqualOrInstances(c, n1, n2)
    ensures answer == NotEqual <==>
      || OneApart(c, n1, n2) || OneApart(c, n2, n1) || Constants(c, n1, n2, false)
      || (!Meets(c, n1, n2) && (FreshOnly(c, n1) || FreshOnly(c, n2)))
    ensures answer == Equal <==> SameObject(c, n1, n2) || Constants(c, n1, n2, true)
  {
    var u1 := UniqueJavaObject(c, n1);
    var u2 := UniqueJavaObject(c, n2);
    answer := CompareUnique(c, n1, n2, u1, u2);
    if answer == Equal {
      EqualIsNotApart(c, n1, n2);
    }
    if answer == DontKnow {
      answer := CompareSets(c, n1, n2);
    }
  }
}
