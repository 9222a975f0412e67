/**
 * Stack allocation analysis (opto/escape.cpp, step 4 of compute_escape): from the
 * eligible allocations, those are struck out whose containers could live in the
 * heap, until no more work is left.
 */
module StackAllocation {
  import opened EscapeStates

  /** The ideal node behind a Java object. */
  datatype Ideal = Allocate | NullConstant | OtherObject

  /** Every other object that contains a is null, or an allocation that stays out of the heap when those of kept do. */
  ghost predicate SafeIn(ideal: map<NodeId, Ideal>, scalar: set<NodeId>, holders: map<NodeId, seq<NodeId>>,
                         kept: set<NodeId>, a: NodeId)
  {
    a in holders && forall i :: 0 <= i < |holders[a]| && holders[a][i] != a ==>
      StaysOut(ideal, scalar, kept, holders[a][i])
  }

  ghost predicate StaysOut(ideal: map<NodeId, Ideal>, scalar: set<NodeId>, kept: set<NodeId>, h: NodeId) {
    h in ideal && (ideal[h].NullConstant? || (ideal[h].Allocate? && (h in kept || h in scalar)))
  }

  lemma SafeInMore(ideal: map<NodeId, Ideal>, scalar: set<NodeId>, holders: map<NodeId, seq<NodeId>>, kept: set<NodeId>,
                   more: set<NodeId>, a: NodeId)
    requires SafeIn(ideal, scalar, holders, kept, a) && kept <= more
    ensures SafeIn(ideal, scalar, holders, more, a)
  {
  }

  class StackAllocationAnalysis {
    const ideal: map<NodeId, Ideal>
    /** For each object the Java objects that are bases of a field it is stored in, in the order they are met. */
    const holders: map<NodeId, seq<NodeId>>
    const scalar: set<NodeId>
    const noEscape: set<NodeId>
    /** `_is_stack_allocateable` */
    var stack: set<NodeId>
    /** `_is_referenced_stack_allocation` */
    var referenced: set<NodeId>

    predicate Valid() {
      holders.Keys == ideal.Keys && forall a, i :: a in holders && 0 <= i < |holders[a]| ==> holders[a][i] in ideal
    }

    ghost predicate Safe(kept: set<NodeId>)
      requires Valid()
    {
      forall a :: a in kept ==> SafeIn(ideal, scalar, holders, kept, a)
    }

    /** Some other allocation contains a. */
    ghost predicate Contained(a: NodeId)
      requires Valid()
    {
      a in ideal && exists i :: 0 <= i < |holders[a]| && holders[a][i] != a && ideal[holders[a][i]].Allocate?
    }

    /** The allocations of the list that are candidates for the stack. */
    ghost predicate Candidate(a: NodeId) {
      a in noEscape && a in ideal && ideal[a].Allocate?
    }

    /** 4. Mark the eligible candidates; eligibility of a single allocation is given. */
    method SelectEligible(list: seq<NodeId>, eligible: set<NodeId>)
      requires stack == {}
      modifies this`stack
      ensures stack == set a | a in list && Candidate(a) && a in eligible
    {
      var i := 0;
      while i < |list|
        invariant 0 <= i <= |list| && stack == set a | a in list[..i] && Candidate(a) && a in eligible
      {
        var a := list[i];
        assert list[..i + 1] == list[..i] + [a];
        if a in noEscape && a in ideal && ideal[a].Allocate? && a in eligible {
          stack := stack + {a};
        }
        i := i + 1;
      }
      assert list[..|list|] == list;
    }

    /** Looks at the containers of one allocation; gives up at the first that is not harmless. */
    method CheckContainers(a: NodeId) returns (struckOut: bool)
      requires Valid() && a in ideal && a in stack
      modifies this`stack, this`referenced
      ensures struckOut <==> !SafeIn(ideal, scalar, holders, old(stack), a)
      ensures stack == if struckOut then old(stack) - {a} else old(stack)
      ensures referenced == if struckOut then old(referenced) - {a} else old(referenced) + if Contained(a) then {a}
        else {}
    {
      var i := 0;
      while i < |holders[a]|
        invariant 0 <= i <= |holders[a]| && stack == old(stack)
        invariant forall j :: 0 <= j < i && holders[a][j] != a ==> StaysOut(ideal, scalar, stack, holders[a][j])
        invariant referenced == old(referenced) +
          if exists j :: 0 <= j < i && holders[a][j] != a && ideal[holders[a][j]].Allocate? then {a} else {}
      {
        var h := holders[a][i];
        if h != a {
          if !ideal[h].Allocate? {
            if !ideal[h].NullConstant? {
              stack, referenced := stack - {a}, referenced - {a};
              return true;
            }
          } else if h !in stack && h !in scalar {
            stack, referenced := stack - {a}, referenced - {a};
            return true;
          } else {
            referenced := referenced + {a};
          }
        }
        i := i + 1;
      }
      return false;
    }

    /** verify_stack_allocated_object_chains: strike out one allocation, or find that all are safe. */
    method VerifyChains(list: seq<NodeId>) returns (more: bool)
      requires Valid() && referenced <= stack
      requires forall a :: a in stack ==> a in list && Candidate(a)
      requires forall a :: a in referenced ==> Contained(a)
      modifies this`stack, this`referenced
      ensures referenced <= stack && (forall a :: a in referenced ==> Contained(a))
      ensures if more then exists a ::
        a in old(stack) && !SafeIn(ideal, scalar, holders, old(stack), a) && stack == old(stack) - {a}
              else stack == old(stack) && Safe(stack) && referenced == set a | a in stack && Contained(a)
    {
      var next := 0;
      while next < |list|
        invariant 0 <= next <= |list| && stack == old(stack) && referenced <= stack
        invariant forall a :: a in referenced ==> Contained(a)
        invariant forall j :: 0 <= j < next && list[j] in stack ==>
          SafeIn(ideal, scalar, holders, stack, list[j]) && (Contained(list[j]) ==> list[j] in referenced)
      {
        var a := list[next];
        if a in noEscape && a in ideal && ideal[a].Allocate? && a in stack {
          var out := CheckContainers(a);
          if out {
            return true;
          }
        }
        next := next + 1;
      }
      return false;
    }

    /**
     * 4.1 Loop until there are no changes: what survives is the largest safe set of
     * eligible allocations, and the flag marks exactly the contained survivors.
     */
    method KeepSafe(list: seq<NodeId>)
      requires Valid() && referenced == {}
      requires forall a :: a in stack ==> a in list && Candidate(a)
      modifies this`stack, this`referenced
      ensures stack <= old(stack) && Safe(stack)
      ensures forall kept :: kept <= old(stack) && Safe(kept) ==> kept <= stack
      ensures referenced == set a | a in stack && Contained(a)
    {
      var more := true;
      while more
        invariant stack <= old(stack) && referenced <= stack && (forall a :: a in referenced ==> Contained(a))
        invariant forall kept :: kept <= old(stack) && Safe(kept) ==> kept <= stack
        invariant !more ==> Safe(stack) && referenced == set a | a in stack && Contained(a)
        decreases stack, more
      {
        ghost var before := stack;
        more := VerifyChains(list);
        if more {
          ghost var a :| a in before && !SafeIn(ideal, scalar, holders, before, a) && stack == before - {a};
          forall kept | kept <= old(stack) && Safe(kept) ensures kept <= stack {
            if a in kept {
              SafeInMore(ideal, scalar, holders, kept, before, a);
            }
          }
        }
      }
    }

    /** The holders and the escape facts are those of the finished graph. */
    ghost predicate ReadOff(g: Graph, edges: seq<seq<NodeId>>, init: seq<State>, states: seq<State>) {
      && Valid() && WellFormed(g, edges) && Solution(g, edges, init, states)
      && (forall a :: a in noEscape ==> a < |g.kinds| && a != g.nullObj && states[a].escape == NO_ESCAPE)
      && (forall a, i :: a in holders && 0 <= i < |holders[a]| ==> HeldBy(g, edges, holders[a][i], a))
    }

    /**
     * Step 4 of compute_escape: of the eligible candidates the largest safe set stays marked, and no object that
     * contains one of them escapes at all.
     */
    method Analyse(list: seq<NodeId>, eligible: set<NodeId>,
                   ghost g: Graph, ghost edges: seq<seq<NodeId>>, ghost init: seq<State>, ghost states: seq<State>)
      requires stack == {} && referenced == {} && ReadOff(g, edges, init, states)
      modifies this
      ensures Safe(stack) && forall a :: a in stack ==> a in list && Candidate(a) && a in eligible
      ensures forall kept :: Safe(kept) && (forall a :: a in kept ==> a in list && Candidate(a) && a in eligible) ==>
        kept <= stack
      ensures forall a, i :: a in stack && 0 <= i < |holders[a]| && holders[a][i] != a ==>
        var h := holders[a][i];
        h in ideal && (ideal[h].NullConstant? || (ideal[h].Allocate? && (h in stack || h in scalar)))
      ensures referenced == set a | a in stack && Contained(a)
      ensures forall a, i :: a in stack && 0 <= i < |holders[a]| && holders[a][i] != g.nullObj ==>
        holders[a][i] < |states| && states[holders[a][i]] == State(NO_ESCAPE, NO_ESCAPE)
    {
      SelectEligible(list, eligible);
      KeepSafe(list);
      forall a, i | a in stack && 0 <= i < |holders[a]| && holders[a][i] != g.nullObj
        ensures holders[a][i] < |states| && states[holders[a][i]] == State(NO_ESCAPE, NO_ESCAPE)
      {
        assert HeldBy(g, edges, holders[a][i], a);
        var f: NodeId :| HoldsIn(g, edges, holders[a][i], f, a);
        HolderEscapesNoFurther(g, edges, init, states, holders[a][i], f, a);
      }
    }
  }

  /** f is an oop field of object h that may hold object a. */
  ghost predicate HoldsIn(g: Graph, edges: seq<seq<NodeId>>, h: NodeId, f: NodeId, a: NodeId)
    requires WellFormed(g, edges)
  {
    && h < |g.kinds| && f < |g.kinds| && a < |g.kinds| && f != g.nullObj
    && g.kinds[h].JavaObject? && IsOopField(g.kinds[f]) && g.kinds[a].JavaObject?
    && f in edges[h] && a in edges[f]
  }

  /** h is a base of a field that may hold a; the null object is one without having fields. */
  ghost predicate HeldBy(g: Graph, edges: seq<seq<NodeId>>, h: NodeId, a: NodeId)
    requires WellFormed(g, edges)
  {
    h == g.nullObj || exists f: NodeId :: HoldsIn(g, edges, h, f, a)
  }

  /**
   * No survivor is stored in an escaping object: if h has a field that may hold a,
   * and the escape states satisfy all edges, h escapes no further than a.
   */
  lemma HolderEscapesNoFurther(g: Graph, edges: seq<seq<NodeId>>, init: seq<State>, states: seq<State>, h: NodeId,
                               f: NodeId, a: NodeId)
    requires WellFormed(g, edges) && Solution(g, edges, init, states)
    requires HoldsIn(g, edges, h, f, a) && a != g.nullObj
    ensures states[h].escape <= states[a].escape
    ensures states[a].escape == NO_ESCAPE ==> states[h] == State(NO_ESCAPE, NO_ESCAPE)
  {
    assert NodeOk(g, edges, states, h) && NodeOk(g, edges, states, f);
    assert EdgeOk(g, states, h, f) && EdgeOk(g, states, f, a);
  }
}
