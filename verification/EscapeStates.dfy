/**
 * Escape states on the connection graph (opto/escape.cpp): propagation along
 * edges with a worklist, by which the states become the least solution above the
 * initial ones.
 */
module EscapeStates {
  import opened Lists

  type NodeId = nat

  datatype NodeType = JavaObject | LocalVar | Field(offset: int, isOop: bool) | Arraycopy

  const NO_ESCAPE := 1
  const ARG_ESCAPE := 2
  const GLOBAL_ESCAPE := 3

  predicate IsOopField(k: NodeType) {
    k.Field? && k.isOop
  }

  /** Escape states of a node and of its fields. */
  datatype State = State(escape: int, fields: int)

  predicate ValidState(s: State) {
    NO_ESCAPE <= s.escape <= s.fields <= GLOBAL_ESCAPE
  }

  predicate Leq(s: State, s': State) {
    s.escape <= s'.escape && s.fields <= s'.fields
  }

  /**
   * What an edge from a node of kind kp in state p to one of kind ke carries along to its state: the fields state
   * always, the escape state unless it leads to an arraycopy, and from an object to its oop field the fields state as
   * that field's escape state.
   */
  ghost predicate Carries(kp: NodeType, p: State, ke: NodeType, e: State) {
    && e.fields >= p.fields
    && (!ke.Arraycopy? ==> e.escape >= p.escape)
    && (kp.JavaObject? && ke.Field? && ke.isOop ==> e.escape >= p.fields)
  }

  predicate AllValid(states: seq<State>) {
    forall i :: 0 <= i < |states| ==> ValidState(states[i])
  }

  predicate AllLeq(a: seq<State>, b: seq<State>) {
    |a| == |b| && forall i :: 0 <= i < |a| ==> Leq(a[i], b[i])
  }

  /** set_escape_state: the null object keeps its state, others are raised. */
  function RaiseEscape(s: State, to: int): State {
    State(if s.escape < to then to else s.escape, if s.fields < to then to else s.fields)
  }

  function RaiseFields(s: State, to: int): State {
    s.(fields := if s.fields < to then to else s.fields)
  }

  /** The new state of an edge's target, branch by branch as find_non_escaped_objects computes it. */
  function Propagated(kp: NodeType, p: State, ke: NodeType, e: State): State {
    if ke.Arraycopy? then
      if e.fields < p.fields then RaiseFields(e, p.fields) else e
    else if p.escape >= p.fields then
      if e.escape < p.escape then RaiseEscape(e, p.escape) else e
    else
      var e1 := if e.fields < p.fields then RaiseFields(e, p.fields) else e;
      if e1.escape < p.fields && kp.JavaObject? && IsOopField(ke) then RaiseEscape(e1, p.fields)
      else if e1.escape < p.escape then RaiseEscape(e1, p.escape)
      else e1
  }

  /** The branches compute the least state above e to which the edge carries its source's along. */
  lemma PropagatedIsJoin(kp: NodeType, p: State, ke: NodeType, e: State, s: State)
    requires ValidState(p) && ValidState(e)
    ensures var r := Propagated(kp, p, ke, e);
      && ValidState(r) && Leq(e, r) && Carries(kp, p, ke, r)
      && (ValidState(s) && Leq(e, s) && Carries(kp, p, ke, s) ==> Leq(r, s))
  {
  }

  // ----- Solutions -----

  datatype Graph = Graph(kinds: seq<NodeType>, nullObj: NodeId, phantom: NodeId)

  ghost predicate WellFormed(g: Graph, edges: seq<seq<NodeId>>) {
    && g.nullObj < |g.kinds| && g.phantom < |g.kinds| && g.nullObj != g.phantom
    && |edges| == |g.kinds|
    && edges[g.nullObj] == []
    && forall p, k :: 0 <= p < |edges| && 0 <= k < |edges[p]| ==> edges[p][k] < |g.kinds|
  }

  /** The edge from p to e is satisfied; the null object is exempt. */
  ghost predicate EdgeOk(g: Graph, states: seq<State>, p: NodeId, e: NodeId)
    requires p < |g.kinds| == |states| && e < |g.kinds|
  {
    e == g.nullObj || Carries(g.kinds[p], states[p], g.kinds[e], states[e])
  }

  ghost predicate NodeOk(g: Graph, edges: seq<seq<NodeId>>, states: seq<State>, p: NodeId)
    requires WellFormed(g, edges) && |states| == |g.kinds| && p < |g.kinds|
  {
    forall k :: 0 <= k < |edges[p]| ==> EdgeOk(g, states, p, edges[p][k])
  }

  /** states is valid, lies above init, and every edge is satisfied. */
  ghost predicate Solution(g: Graph, edges: seq<seq<NodeId>>, init: seq<State>, states: seq<State>)
    requires WellFormed(g, edges)
  {
    && |states| == |g.kinds| && AllValid(states) && AllLeq(init, states)
    && forall p :: 0 <= p < |g.kinds| ==> NodeOk(g, edges, states, p)
  }

  /** No solution is smaller than states anywhere. */
  ghost predicate BelowAll(g: Graph, edges: seq<seq<NodeId>>, init: seq<State>, states: seq<State>)
    requires WellFormed(g, edges)
  {
    forall other :: Solution(g, edges, init, other) ==> AllLeq(states, other)
  }

  lemma StepStaysBelow(g: Graph, edges: seq<seq<NodeId>>, init: seq<State>, states: seq<State>, p: NodeId, k: nat)
    requires WellFormed(g, edges) && |states| == |g.kinds| && AllValid(states) && BelowAll(g, edges, init, states)
    requires p < |g.kinds| && k < |edges[p]| && edges[p][k] != g.nullObj
    ensures var e := edges[p][k];
      BelowAll(g, edges, init, states[e := Propagated(g.kinds[p], states[p], g.kinds[e], states[e])])
  {
    var e := edges[p][k];
    var r := Propagated(g.kinds[p], states[p], g.kinds[e], states[e]);
    forall other | Solution(g, edges, init, other) ensures AllLeq(states[e := r], other) {
      assert AllLeq(states, other);
      assert NodeOk(g, edges, other, p) && EdgeOk(g, other, p, e);
      assert Leq(states[p], other[p]);
      PropagatedIsJoin(g.kinds[p], states[p], g.kinds[e], states[e], other[e]);
    }
  }

  // ----- Termination -----

  ghost function Room(states: seq<State>): nat
    requires AllValid(states)
  {
    if states == [] then 0
    else 2 * GLOBAL_ESCAPE - states[0].escape - states[0].fields + Room(states[1..])
  }

  lemma {:induction false} RoomShrinks(states: seq<State>, i: nat, s: State)
    requires AllValid(states) && i < |states| && ValidState(s) && Leq(states[i], s) && states[i] != s
    ensures AllValid(states[i := s]) && Room(states[i := s]) < Room(states)
  {
    if i == 0 {
      assert states[0 := s][1..] == states[1..];
    } else {
      RoomShrinks(states[1..], i - 1, s);
      assert states[i := s][1..] == states[1..][i - 1 := s];
    }
  }

  ghost function NotNull(g: Graph, work: seq<NodeId>): nat {
    if work == [] then 0 else (if work[|work| - 1] == g.nullObj then 0 else 1) + NotNull(g, work[..|work| - 1])
  }

  lemma NotNullPush(g: Graph, work: seq<NodeId>, e: NodeId)
    ensures NotNull(g, work + [e]) == NotNull(g, work) + if e == g.nullObj then 0 else 1
  {
    assert (work + [e])[..|work|] == work;
  }

  lemma NodeOkKept(g: Graph, edges: seq<seq<NodeId>>, states: seq<State>, e: NodeId, r: State, q: NodeId)
    requires WellFormed(g, edges) && |states| == |g.kinds| && q < |g.kinds| && e < |g.kinds| && q != e
    requires NodeOk(g, edges, states, q) && Leq(states[e], r)
    ensures NodeOk(g, edges, states[e := r], q)
  {
    forall k | 0 <= k < |edges[q]| ensures EdgeOk(g, states[e := r], q, edges[q][k]) {
      assert EdgeOk(g, states, q, edges[q][k]);
    }
  }

  predicate InRange(g: Graph, s: seq<NodeId>) {
    forall i :: 0 <= i < |s| ==> s[i] < |g.kinds|
  }

  /** Nodes that are not pending satisfy their edges. */
  ghost predicate SettledBut(g: Graph, edges: seq<seq<NodeId>>, states: seq<State>, pending: set<NodeId>)
    requires WellFormed(g, edges) && |states| == |g.kinds|
  {
    forall q :: 0 <= q < |g.kinds| && q !in pending ==> NodeOk(g, edges, states, q)
  }

  /** remaining holds the members of s that do not escape globally, and none twice unless s does. */
  ghost predicate KeepsNotGlobal(states: seq<State>, s: seq<NodeId>, remaining: seq<NodeId>) {
    && (forall x :: x in remaining <==> x in s && x < |states| && states[x].escape < GLOBAL_ESCAPE)
    && (NoDup(s) ==> NoDup(remaining))
  }

  /** delete_at fills the hole with the last element. */
  function DeleteAt(s: seq<NodeId>, i: nat): seq<NodeId>
    requires i < |s|
  {
    s[i := s[|s| - 1]][..|s| - 1]
  }

  lemma DeleteAtMembers(s: seq<NodeId>, i: nat)
    requires i < |s|
    ensures forall x :: x in DeleteAt(s, i) ==> x in s
    ensures forall x :: x in s ==> x == s[i] || x in DeleteAt(s, i)
    ensures NoDup(s) ==> NoDup(DeleteAt(s, i))
  {
    var d := DeleteAt(s, i);
    assert forall k :: 0 <= k < |d| ==> d[k] == if k == i then s[|s| - 1] else s[k];
    forall x | x in s && x != s[i] ensures x in d {
      var k :| 0 <= k < |s| && s[k] == x;
      assert d[if k == |s| - 1 then i else k] == x;
    }
  }

  /** An oop field whose escape state makes its value unknown. */
  predicate UnknownValue(g: Graph, states: seq<State>, x: NodeId) {
    x < |g.kinds| == |states| && g.kinds[x].Field? && g.kinds[x].isOop && states[x].escape >= ARG_ESCAPE
  }

  /** States only grow, so values stay unknown. */
  lemma StillUnknown(g: Graph, before: seq<State>, states: seq<State>, xs: set<NodeId>)
    requires AllLeq(before, states) && |states| == |before| && forall x :: x in xs ==> UnknownValue(g, before, x)
    ensures forall x :: x in xs ==> UnknownValue(g, states, x)
  {
    forall x | x in xs ensures UnknownValue(g, states, x) {
      assert UnknownValue(g, before, x) && Leq(before[x], states[x]);
    }
  }

  /** The first k edges of p are satisfied. */
  ghost predicate EdgesUptoOk(g: Graph, edges: seq<seq<NodeId>>, states: seq<State>, p: NodeId, k: nat) {
    && WellFormed(g, edges) && |states| == |g.kinds| && p < |g.kinds| && k <= |edges[p]|
    && forall j :: 0 <= j < k ==> EdgeOk(g, states, p, edges[p][j])
  }

  lemma EdgesStayOk(g: Graph, edges: seq<seq<NodeId>>, before: seq<State>, states: seq<State>, p: NodeId, k: nat)
    requires EdgesUptoOk(g, edges, before, p, k) && k < |edges[p]| && AllLeq(before, states) && states[p] == before[p]
    requires EdgeOk(g, states, p, edges[p][k])
    ensures EdgesUptoOk(g, edges, states, p, k + 1)
  {
    forall j | 0 <= j < k + 1 ensures EdgeOk(g, states, p, edges[p][j]) {
      if j < k {
        assert EdgeOk(g, before, p, edges[p][j]) && Leq(before[edges[p][j]], states[edges[p][j]]);
      }
    }
  }

  ghost predicate WorkingOn(g: Graph, edges: seq<seq<NodeId>>, init: seq<State>, states: seq<State>,
                            pending: set<NodeId>)
  {
    && WellFormed(g, edges) && |states| == |g.kinds| && AllValid(states)
    && AllLeq(init, states) && BelowAll(g, edges, init, states)
    && SettledBut(g, edges, states, pending)
  }

  lemma NodeSettled(g: Graph, edges: seq<seq<NodeId>>, init: seq<State>, states: seq<State>, pending: set<NodeId>,
                    p: NodeId)
    requires WorkingOn(g, edges, init, states, pending + {p}) && p < |g.kinds|
    requires EdgesUptoOk(g, edges, states, p, |edges[p]|)
    ensures WorkingOn(g, edges, init, states, pending)
  {
    assert NodeOk(g, edges, states, p);
  }

  class ConnectionGraph {
    const g: Graph
    /** Edges between nodes; an edge to the phantom object is the flag `unknown` instead. */
    const edges: seq<seq<NodeId>>
    var states: seq<State>
    /** Nodes with an edge to the phantom object (PointsToUnknown). */
    var unknown: set<NodeId>

    ghost predicate Valid()
      reads this`states
    {
      WellFormed(g, edges) && |states| == |g.kinds| && AllValid(states)
    }

    /**
     * What is not pending is satisfied, and no solution above init is overtaken. (Folded: it opens where WorkingOn is
     * mentioned.)
     */
    ghost predicate Working(init: seq<State>, pending: set<NodeId>)
      reads this`states
    {
      Valid() && forall s: seq<State> :: s == states ==> WorkingOn(g, edges, init, s, pending)
    }

    /** States only grew, and every node that changed is on the worklist. */
    ghost predicate Grew(before: seq<State>, work: seq<NodeId>)
      reads this`states
    {
      AllLeq(before, states) && forall x :: 0 <= x < |states| && states[x] != before[x] ==> x in work
    }

    /**
     * Propagates along the k'th edge of p; the target goes on the worklist if it changed, and null even if it did not.
     */
    method Propagate(p: NodeId, k: nat, work: seq<NodeId>, ghost init: seq<State>) returns (work': seq<NodeId>)
      requires Working(init, Elems(work) + {p}) && InRange(g, work) && p < |g.kinds| && k < |edges[p]|
      modifies this`states
      ensures InRange(g, work') && work <= work' && Working(init, Elems(work') + {p}) && Grew(old(states), work')
      ensures states[p] == old(states[p])
      ensures EdgeOk(g, states, p, edges[p][k])
      ensures var e := edges[p][k]; var r := Propagated(g.kinds[p], old(states[p]), g.kinds[e], old(states[e]));
        && work' == (if r != old(states[e]) then work + [e] else work)
        && states == (if e == g.nullObj then old(states) else old(states)[e := r])
      ensures Room(states) < old(Room(states)) || (states == old(states) && NotNull(g, work') == NotNull(g, work))
    {
      assert WorkingOn(g, edges, init, states, Elems(work) + {p});
      var e := edges[p][k];
      var kp, ke, sp, se := g.kinds[p], g.kinds[e], states[p], states[e];
      var r := Propagated(kp, sp, ke, se);
      PropagatedIsJoin(kp, sp, ke, se, sp);
      work' := work;
      if r != se {
        work' := work + [e];
        NotNullPush(g, work, e);
        assert work'[|work|] == e;
        if e != g.nullObj {
          StepStaysBelow(g, edges, init, states, p, k);
          RoomShrinks(states, e, r);
          forall q | 0 <= q < |g.kinds| && q !in Elems(work') + {p} ensures NodeOk(g, edges, states[e := r], q) {
            NodeOkKept(g, edges, states, e, r, q);
          }
          states := states[e := r];
        }
      }
    }

    /** Takes one node off the worklist and propagates along all its edges. */
    method ProcessNode(p: NodeId, work: seq<NodeId>, ghost init: seq<State>) returns (work': seq<NodeId>)
      requires p < |g.kinds| && InRange(g, work) && Working(init, Elems(work) + {p})
      modifies this
      ensures InRange(g, work') && work <= work' && Working(init, Elems(work')) && Grew(old(states), work')
      ensures states[p] == old(states[p])
      ensures unknown == old(unknown) + if IsOopField(g.kinds[p]) && old(states[p].escape) >= ARG_ESCAPE then {p}
        else {}
      ensures Room(states) < old(Room(states)) ||
        (NotNull(g, work') == NotNull(g, work) && (p == g.nullObj ==> work' == work))
      ensures Room(states) <= old(Room(states))
    {
      if IsOopField(g.kinds[p]) && states[p].escape >= ARG_ESCAPE {
        // What the field holds is not known from here on.
        unknown := unknown + {p};
      }
      work' := PropagateAll(p, work, init);
    }

    /** All edges of p. */
    method PropagateAll(p: NodeId, work: seq<NodeId>, ghost init: seq<State>) returns (work': seq<NodeId>)
      requires p < |g.kinds| && InRange(g, work) && Working(init, Elems(work) + {p})
      modifies this`states
      ensures InRange(g, work') && work <= work' && Working(init, Elems(work')) && Grew(old(states), work')
      ensures states[p] == old(states[p])
      ensures Room(states) < old(Room(states)) ||
        (NotNull(g, work') == NotNull(g, work) && (p == g.nullObj ==> work' == work))
      ensures Room(states) <= old(Room(states))
    {
      work' := work;
      var k := 0;
      while k < |edges[p]|
        invariant 0 <= k <= |edges[p]| && InRange(g, work') && work <= work' && Working(init, Elems(work') + {p})
        invariant Grew(old(states), work') && states[p] == old(states[p])
        invariant EdgesUptoOk(g, edges, states, p, k)
        invariant Room(states) < old(Room(states)) || (states == old(states) && NotNull(g, work') == NotNull(g, work))
        invariant k == 0 ==> work' == work
      {
        ghost var before := states;
        work' := Propagate(p, k, work', init);
        EdgesStayOk(g, edges, before, states, p, k);
        k := k + 1;
      }
      assert WorkingOn(g, edges, init, states, Elems(work') + {p});
      NodeSettled(g, edges, init, states, Elems(work'), p);
    }

    /** First, put all nodes with GlobalEscape and ArgEscape states on the worklist. */
    method EscapedNodes(ptnodes: seq<NodeId>) returns (work: seq<NodeId>)
      requires Valid() && InRange(g, ptnodes)
      requires forall x :: 0 <= x < |g.kinds| ==> x in ptnodes || states[x] == State(NO_ESCAPE, NO_ESCAPE)
      ensures InRange(g, work) && SettledBut(g, edges, states, Elems(work))
      ensures forall x :: 0 <= x < |g.kinds| && x !in work ==> states[x] == State(NO_ESCAPE, NO_ESCAPE)
    {
      work := [];
      var i := 0;
      while i < |ptnodes|
        invariant 0 <= i <= |ptnodes| && InRange(g, work)
        invariant forall j :: 0 <= j < i && ptnodes[j] !in work ==> states[ptnodes[j]] == State(NO_ESCAPE, NO_ESCAPE)
      {
        var n := ptnodes[i];
        if states[n].escape >= ARG_ESCAPE || states[n].fields >= ARG_ESCAPE {
          work := work + [n];
          assert work[|work| - 1] == n;
        }
        i := i + 1;
      }
    }

    /** Remove escaped objects from the list. */
    method DropEscaped(nonEscaped: seq<NodeId>) returns (remaining: seq<NodeId>)
      requires Valid() && InRange(g, nonEscaped)
      ensures KeepsNotGlobal(states, nonEscaped, remaining)
    {
      remaining := nonEscaped;
      var next := |nonEscaped|;
      while 0 < next
        invariant 0 <= next <= |remaining| && InRange(g, remaining) && (NoDup(nonEscaped) ==> NoDup(remaining))
        invariant forall k :: next <= k < |remaining| ==> states[remaining[k]].escape < GLOBAL_ESCAPE
        invariant forall x :: x in remaining ==> x in nonEscaped
        invariant forall x :: x in nonEscaped && x < |states| && states[x].escape < GLOBAL_ESCAPE ==> x in remaining
      {
        next := next - 1;
        if states[remaining[next]].escape >= GLOBAL_ESCAPE {
          DeleteAtMembers(remaining, next);
          remaining := DeleteAt(remaining, next);
        }
      }
    }

    /**
     * Propagates GlobalEscape and ArgEscape to all nodes and drops escaped objects
     * from the list.  The states become the least solution above the initial ones,
     * and exactly the fields that may hold anything gain an edge to the phantom object.
     */
    method FindNonEscapedObjects(ptnodes: seq<NodeId>, nonEscaped: seq<NodeId>) returns (remaining: seq<NodeId>)
      requires Valid() && InRange(g, ptnodes) && InRange(g, nonEscaped)
      requires forall x :: 0 <= x < |g.kinds| ==> x in ptnodes || states[x] == State(NO_ESCAPE, NO_ESCAPE)
      modifies this
      ensures Valid() && Solution(g, edges, old(states), states) && BelowAll(g, edges, old(states), states)
      ensures KeepsNotGlobal(states, nonEscaped, remaining)
      ensures unknown >= old(unknown)
      ensures forall x :: UnknownValue(g, states, x) ==> x in unknown
      ensures forall x :: x in unknown - old(unknown) ==> UnknownValue(g, states, x)
    {
      ghost var init := states;
      var work := EscapedNodes(ptnodes);
      assert WorkingOn(g, edges, init, states, Elems(work));
      while 0 < |work|
        invariant InRange(g, work) && Working(init, Elems(work)) && unknown >= old(unknown)
        invariant forall x :: UnknownValue(g, states, x) ==> x in unknown || x in work
        invariant forall x :: x in unknown - old(unknown) ==> UnknownValue(g, states, x)
        decreases Room(states), NotNull(g, work), |work|
      {
        var p, under := work[|work| - 1], work[..|work| - 1];
        assert work == under + [p];
        assert Elems(work) == Elems(under) + {p};
        NotNullPush(g, under, p);
        ghost var before := states;
        work := ProcessNode(p, under, init);
        StillUnknown(g, before, states, unknown - old(unknown));
      }
      assert WorkingOn(g, edges, init, states, Elems(work));
      remaining := DropEscaped(nonEscaped);
    }
  }
}
