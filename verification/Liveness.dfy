/**
 * Backward liveness of registers (opto/buildOopMap.cpp, do_liveness): a worklist
 * over blocks that records the registers live at each safepoint, with a retry for
 * blocks that cannot be reached backwards from the root.  Bit vectors are sets of
 * register numbers.
 */
module Liveness {
  import opened Lists

  type Reg = nat
  type RegSet = set<Reg>
  type Live = seq<RegSet>

  /** An instruction: registers it defines and uses, and whether it has a JVM state (a safepoint). */
  datatype Instr = Instr(defs: RegSet, uses: RegSet, safepoint: bool)

  datatype Block = Block(nodes: seq<Instr>, succs: seq<nat>, preds: seq<nat>)

  datatype Program = Program(blocks: seq<Block>, regs: RegSet)

  /** Block 0 is the root; every block has a successor, and predecessors mirror successors. */
  ghost predicate WellFormed(p: Program) {
    && 1 <= |p.blocks|
    && (forall b :: 0 <= b < |p.blocks| ==> BlockOk(p, b))
    && (forall b, s :: 0 <= b < |p.blocks| && 0 <= s < |p.blocks| ==>
      (s in p.blocks[b].succs <==> b in p.blocks[s].preds))
  }

  ghost predicate BlockOk(p: Program, b: nat)
    requires b < |p.blocks|
  {
    && 1 <= |p.blocks[b].succs|
    && (forall j :: 0 <= j < |p.blocks[b].succs| ==> p.blocks[b].succs[j] < |p.blocks|)
    && (forall j :: 0 <= j < |p.blocks[b].preds| ==> p.blocks[b].preds[j] < |p.blocks|)
    && (forall k :: 0 <= k < |p.blocks[b].nodes| ==> p.blocks[b].nodes[k].uses <= p.regs)
  }

  // ----- Dataflow equations -----

  /** Registers live just before node k, with out live at the end. */
  ghost function LiveAt(nodes: seq<Instr>, k: nat, out: RegSet): RegSet
    requires k <= |nodes|
    decreases |nodes| - k
  {
    if k == |nodes| then out else LiveAt(nodes, k + 1, out) - nodes[k].defs + nodes[k].uses
  }

  ghost function Union(live: Live, succs: seq<nat>): RegSet
    requires forall j :: 0 <= j < |succs| ==> succs[j] < |live|
  {
    set j, r | 0 <= j < |succs| && r in live[succs[j]] :: r
  }

  ghost function Out(p: Program, live: Live, b: nat): RegSet
    requires |live| == |p.blocks| && b < |p.blocks| && BlockOk(p, b)
  {
    Union(live, p.blocks[b].succs)
  }

  ghost function In(p: Program, live: Live, b: nat): RegSet
    requires |live| == |p.blocks| && b < |p.blocks| && BlockOk(p, b)
  {
    LiveAt(p.blocks[b].nodes, 0, Out(p, live, b))
  }

  ghost predicate Leq(a: Live, b: Live) {
    |a| == |b| && forall i :: 0 <= i < |a| ==> a[i] <= b[i]
  }

  ghost predicate Fixpoint(p: Program, x: Live)
    requires WellFormed(p)
  {
    |x| == |p.blocks| && forall b :: 0 <= b < |p.blocks| ==> x[b] == In(p, x, b)
  }

  /** live lies below every fixpoint. */
  ghost predicate BelowAll(p: Program, live: Live)
    requires WellFormed(p)
  {
    forall x :: Fixpoint(p, x) ==> Leq(live, x)
  }

  lemma {:induction false} LiveAtMonotone(nodes: seq<Instr>, k: nat, out: RegSet, out': RegSet)
    requires k <= |nodes| && out <= out'
    ensures LiveAt(nodes, k, out) <= LiveAt(nodes, k, out')
    decreases |nodes| - k
  {
    if k < |nodes| {
      LiveAtMonotone(nodes, k + 1, out, out');
    }
  }

  lemma {:induction false} LiveAtBounded(p: Program, b: nat, k: nat, out: RegSet)
    requires b < |p.blocks| && BlockOk(p, b) && k <= |p.blocks[b].nodes| && out <= p.regs
    ensures LiveAt(p.blocks[b].nodes, k, out) <= p.regs
    decreases |p.blocks[b].nodes| - k
  {
    if k < |p.blocks[b].nodes| {
      LiveAtBounded(p, b, k + 1, out);
    }
  }

  lemma InMonotone(p: Program, x: Live, y: Live, b: nat)
    requires |x| == |y| == |p.blocks| && b < |p.blocks| && BlockOk(p, b) && Leq(x, y)
    ensures Out(p, x, b) <= Out(p, y, b) && In(p, x, b) <= In(p, y, b)
  {
    forall r | r in Out(p, x, b) ensures r in Out(p, y, b) {
      var j :| 0 <= j < |p.blocks[b].succs| && r in x[p.blocks[b].succs[j]];
      assert r in y[p.blocks[b].succs[j]];
    }
    LiveAtMonotone(p.blocks[b].nodes, 0, Out(p, x, b), Out(p, y, b));
  }

  // ----- What being live means -----

  /** From node k on, r is used before anything defines it. */
  ghost predicate UsedFirst(nodes: seq<Instr>, k: nat, r: Reg) {
    exists j :: k <= j < |nodes| && r in nodes[j].uses && forall i :: k <= i < j ==> r !in nodes[i].defs
  }

  /** Nothing from node k on defines r. */
  ghost predicate Passes(nodes: seq<Instr>, k: nat, r: Reg) {
    forall i :: k <= i < |nodes| ==> r !in nodes[i].defs
  }

  /** Live is what is used first, or is live at the end and gets there. */
  lemma {:induction false} LiveAtMeans(nodes: seq<Instr>, k: nat, out: RegSet, r: Reg)
    requires k <= |nodes|
    ensures r in LiveAt(nodes, k, out) <==> UsedFirst(nodes, k, r) || (r in out && Passes(nodes, k, r))
    decreases |nodes| - k
  {
    if k < |nodes| {
      LiveAtMeans(nodes, k + 1, out, r);
      if r !in nodes[k].defs && UsedFirst(nodes, k + 1, r) {
        var j :| k + 1 <= j < |nodes| && r in nodes[j].uses && forall i :: k + 1 <= i < j ==> r !in nodes[i].defs;
        assert forall i :: k <= i < j ==> r !in nodes[i].defs;
      }
    }
  }

  /**
   * Control goes along path from node k of its first block to a use of r, through blocks of done, and nothing defines
   * r.
   */
  ghost predicate IsUsePath(p: Program, done: set<nat>, path: seq<nat>, k: nat, r: Reg) {
    && 1 <= |path| && (forall i :: 0 <= i < |path| ==> path[i] in done && path[i] < |p.blocks|)
    && (forall i :: 0 <= i < |path| - 1 ==> StepPasses(p, path, i, k, r))
    && UsedFirst(p.blocks[path[|path| - 1]].nodes, if |path| == 1 then k else 0, r)
  }

  ghost predicate StepPasses(p: Program, path: seq<nat>, i: nat, k: nat, r: Reg) {
    && i + 1 < |path| && path[i] < |p.blocks| && path[i + 1] in p.blocks[path[i]].succs
    && Passes(p.blocks[path[i]].nodes, if i == 0 then k else 0, r)
  }

  /** r is needed at node k of block b: some path from there leads to a use of it before any definition. */
  ghost predicate NeededAt(p: Program, done: set<nat>, b: nat, k: nat, r: Reg) {
    exists path :: IsUsePath(p, done, path, k, r) && path[0] == b
  }

  lemma NeededHere(p: Program, done: set<nat>, b: nat, k: nat, r: Reg)
    requires b in done && b < |p.blocks| && UsedFirst(p.blocks[b].nodes, k, r)
    ensures NeededAt(p, done, b, k, r)
  {
    assert IsUsePath(p, done, [b], k, r);
  }

  lemma NeededLater(p: Program, done: set<nat>, b: nat, k: nat, s: nat, r: Reg)
    requires b in done && b < |p.blocks| && s in p.blocks[b].succs && Passes(p.blocks[b].nodes, k, r)
    requires NeededAt(p, done, s, 0, r)
    ensures NeededAt(p, done, b, k, r)
  {
    var path :| IsUsePath(p, done, path, 0, r) && path[0] == s;
    var longer := [b] + path;
    forall i | 0 <= i < |longer| - 1 ensures StepPasses(p, longer, i, k, r) {
      if i > 0 {
        assert StepPasses(p, path, i - 1, 0, r);
      }
    }
    assert IsUsePath(p, done, longer, k, r);
  }

  lemma NeededMore(p: Program, done: set<nat>, more: set<nat>, b: nat, k: nat, r: Reg)
    requires NeededAt(p, done, b, k, r) && done <= more
    ensures NeededAt(p, more, b, k, r)
  {
    var path :| IsUsePath(p, done, path, k, r) && path[0] == b;
    assert IsUsePath(p, more, path, k, r);
  }

  ghost predicate AllJustified(p: Program, live: Live, done: set<nat>) {
    forall b: nat, r :: b < |live| && r in live[b] ==> NeededAt(p, done, b, 0, r)
  }

  /** Every live bit is there for a use.  (Folded: it opens where AllJustified is mentioned.) */
  ghost predicate Justified(p: Program, live: Live, done: set<nat>) {
    forall l: Live :: l == live ==> AllJustified(p, l, done)
  }

  /** What is live before node k is there for a use. */
  lemma LiveIsNeeded(p: Program, live: Live, done: set<nat>, b: nat, k: nat, r: Reg)
    requires |live| == |p.blocks| && b < |p.blocks| && BlockOk(p, b) && b in done && Justified(p, live, done)
    requires k <= |p.blocks[b].nodes| && r in LiveAt(p.blocks[b].nodes, k, Out(p, live, b))
    ensures NeededAt(p, done, b, k, r)
  {
    assert AllJustified(p, live, done);
    LiveAtMeans(p.blocks[b].nodes, k, Out(p, live, b), r);
    if UsedFirst(p.blocks[b].nodes, k, r) {
      NeededHere(p, done, b, k, r);
    } else {
      var j :| 0 <= j < |p.blocks[b].succs| && r in live[p.blocks[b].succs[j]];
      NeededLater(p, done, b, k, p.blocks[b].succs[j], r);
    }
  }

  lemma JustifiedMore(p: Program, live: Live, done: set<nat>, more: set<nat>)
    requires Justified(p, live, done) && done <= more
    ensures Justified(p, live, more)
  {
    assert AllJustified(p, live, done);
    forall c: nat, r | c < |live| && r in live[c] ensures NeededAt(p, more, c, 0, r) {
      NeededMore(p, done, more, c, 0, r);
    }
  }

  lemma JustifiedStep(p: Program, live: Live, done: set<nat>, b: nat)
    requires |live| == |p.blocks| && b < |p.blocks| && BlockOk(p, b) && Justified(p, live, done)
    ensures Justified(p, live, done + {b}) && Justified(p, live[b := In(p, live, b)], done + {b})
  {
    JustifiedMore(p, live, done, done + {b});
    assert AllJustified(p, live, done + {b});
    forall r | r in In(p, live, b) ensures NeededAt(p, done + {b}, b, 0, r) {
      LiveIsNeeded(p, live, done + {b}, b, 0, r);
    }
    assert AllJustified(p, live[b := In(p, live, b)], done + {b});
  }

  /** When the blocks of done satisfy their equations, every use at the end of a path makes its register live. */
  lemma {:induction false} NeededIsLive(p: Program, live: Live, safe: Snapshots, done: set<nat>, path: seq<nat>, k: nat,
                                        r: Reg)
    requires |live| == |p.blocks|
    requires (forall b :: b in done ==> b < |p.blocks| && BlockOk(p, b) && Stable(p, live, safe, b))
    requires IsUsePath(p, done, path, k, r) && k <= |p.blocks[path[0]].nodes|
    ensures path[0] in done && BlockOk(p, path[0])
    ensures r in LiveAt(p.blocks[path[0]].nodes, k, Out(p, live, path[0]))
    decreases |path|
  {
    var b := path[0];
    LiveAtMeans(p.blocks[b].nodes, k, Out(p, live, b), r);
    if |path| > 1 {
      var rest := path[1..];
      assert StepPasses(p, path, 0, k, r);
      forall i | 0 <= i < |rest| - 1 ensures StepPasses(p, rest, i, 0, r) {
        assert StepPasses(p, path, i + 1, k, r);
      }
      NeededIsLive(p, live, safe, done, rest, 0, r);
      var j :| 0 <= j < |p.blocks[b].succs| && p.blocks[b].succs[j] == path[1];
      assert r in live[p.blocks[b].succs[j]];
    }
  }

  /** The snapshots of processed blocks hold exactly what is needed. */
  ghost predicate SnapshotIsNeeded(p: Program, safe: Snapshots, done: set<nat>, b: nat, k: nat) {
    (b, k) in safe && forall r :: r in safe[(b, k)] <==> NeededAt(p, done, b, k, r)
  }

  lemma SnapshotsAreNeeded(p: Program, live: Live, safe: Snapshots, done: set<nat>, b: nat, k: nat)
    requires WellFormed(p) && |live| == |p.blocks| && Justified(p, live, done)
    requires forall c :: c in done ==> c < |p.blocks| && Stable(p, live, safe, c)
    requires b in done && k < |p.blocks[b].nodes| && p.blocks[b].nodes[k].safepoint
    ensures SnapshotIsNeeded(p, safe, done, b, k)
  {
    assert Stable(p, live, safe, b) && BlockOk(p, b);
    forall r ensures r in safe[(b, k)] <==> NeededAt(p, done, b, k, r) {
      if r in safe[(b, k)] {
        LiveIsNeeded(p, live, done, b, k, r);
      }
      if NeededAt(p, done, b, k, r) {
        var path :| IsUsePath(p, done, path, k, r) && path[0] == b;
        NeededIsLive(p, live, safe, done, path, k, r);
      }
    }
  }

  // ----- State of the worklist -----

  type Snapshots = map<(nat, nat), RegSet>

  /** Every safepoint of block b is recorded with the registers live just before it. */
  ghost predicate SnapshotsMatch(p: Program, live: Live, safe: Snapshots, b: nat)
    requires |live| == |p.blocks| && b < |p.blocks| && BlockOk(p, b)
  {
    forall k :: 0 <= k < |p.blocks[b].nodes| && p.blocks[b].nodes[k].safepoint ==>
      (b, k) in safe && safe[(b, k)] == LiveAt(p.blocks[b].nodes, k, Out(p, live, b))
  }

  /** Block b satisfies its dataflow equation, and its snapshots agree. */
  ghost predicate Stable(p: Program, live: Live, safe: Snapshots, b: nat)
    requires |live| == |p.blocks| && b < |p.blocks| && BlockOk(p, b)
  {
    live[b] == In(p, live, b) && SnapshotsMatch(p, live, safe, b)
  }

  /** Values only grow towards the least fixpoint. */
  ghost predicate Rising(p: Program, live: Live) {
    && WellFormed(p) && |live| == |p.blocks|
    && (forall b :: 0 <= b < |live| ==> live[b] <= p.regs && live[b] <= In(p, live, b))
    && BelowAll(p, live)
  }

  lemma RisingStep(p: Program, live: Live, b: nat)
    requires Rising(p, live) && b < |p.blocks|
    ensures Rising(p, live[b := In(p, live, b)]) && Leq(live, live[b := In(p, live, b)])
  {
    var live' := live[b := In(p, live, b)];
    forall c | 0 <= c < |live| ensures live'[c] <= p.regs && live'[c] <= In(p, live', c) {
      InMonotone(p, live, live', c);
      LiveAtBounded(p, b, 0, Out(p, live, b));
    }
    forall x | Fixpoint(p, x) ensures Leq(live', x) {
      InMonotone(p, live, x, b);
    }
  }

  /** A block that does not have b as successor does not notice a change of b. */
  lemma OutKept(p: Program, live: Live, b: nat, v: RegSet, q: nat)
    requires WellFormed(p) && |live| == |p.blocks| && b < |p.blocks| && q < |p.blocks| && b !in p.blocks[q].succs
    ensures Out(p, live[b := v], q) == Out(p, live, q)
  {
    assert BlockOk(p, q);
    var succs := p.blocks[q].succs;
    forall r ensures r in Union(live[b := v], succs) <==> r in Union(live, succs) {
      if r in Union(live, succs) {
        var j :| 0 <= j < |succs| && r in live[succs[j]];
        assert r in live[b := v][succs[j]];
      }
    }
  }

  lemma StableKept(p: Program, live: Live, safe: Snapshots, b: nat, v: RegSet, safe': Snapshots, q: nat)
    requires WellFormed(p) && |live| == |p.blocks| && b < |p.blocks| && q < |p.blocks|
    requires Stable(p, live, safe, q) && q != b && b !in p.blocks[q].succs
    requires forall k :: (q, k) in safe ==> (q, k) in safe' && safe'[(q, k)] == safe[(q, k)]
    ensures Stable(p, live[b := v], safe', q)
  {
    OutKept(p, live, b, v, q);
  }

  /** After block b, the processed blocks that are not pending are stable. */
  lemma StableNext(p: Program, live: Live, safe: Snapshots, live': Live, safe': Snapshots, b: nat, done: set<nat>,
                   pending: set<nat>, pending': set<nat>)
    requires WellFormed(p) && |live| == |p.blocks| && b < |p.blocks| && BlockOk(p, b)
    requires live' == live[b := In(p, live, b)] && SnapshotsMatch(p, live, safe', b)
    requires forall q, k :: q != b && (q, k) in safe ==> (q, k) in safe' && safe'[(q, k)] == safe[(q, k)]
    requires pending <= pending' + {b} && (live' != live ==> forall q :: q in p.blocks[b].preds ==> q in pending')
    requires forall q :: q in done ==> q < |p.blocks|
    requires forall q :: q in done && q !in pending ==> Stable(p, live, safe, q)
    ensures forall q :: q in done + {b} && q !in pending' ==> Stable(p, live', safe', q)
  {
    forall q | q in done + {b} && q !in pending' ensures Stable(p, live', safe', q) {
      if live' == live {
        assert q != b ==> forall k :: (q, k) in safe ==> (q, k) in safe' && safe'[(q, k)] == safe[(q, k)];
      } else if q != b {
        StableKept(p, live, safe, b, In(p, live, b), safe', q);
      } else {
        OutKept(p, live, b, In(p, live, b), b);
      }
    }
  }

  // ----- Termination -----

  ghost function Room(p: Program, live: Live): nat {
    if live == [] then 0 else |p.regs - live[0]| + Room(p, live[1..])
  }

  lemma {:induction false} RoomShrinks(p: Program, live: Live, b: nat, v: RegSet)
    requires b < |live| && live[b] < v <= p.regs
    ensures Room(p, live[b := v]) < Room(p, live)
  {
    if b == 0 {
      assert live[0 := v][1..] == live[1..];
      SmallerSet(p.regs - v, p.regs - live[0], p.regs, live[0], v);
    } else {
      RoomShrinks(p, live[1..], b - 1, v);
      assert live[b := v][1..] == live[1..][b - 1 := v];
    }
  }

  lemma SmallerSet(a: RegSet, b: RegSet, regs: RegSet, x: RegSet, y: RegSet)
    requires a == regs - y && b == regs - x && x < y <= regs
    ensures |a| < |b|
  {
    var r :| r in y && r !in x;
    assert a <= b - {r};
    SubsetSize(a, b - {r});
  }

  lemma {:induction false} SubsetSize(a: RegSet, b: RegSet)
    requires a <= b
    ensures |a| <= |b|
    decreases a
  {
    if a != {} {
      var r :| r in a;
      SubsetSize(a - {r}, b - {r});
    }
  }

  // ----- The algorithm -----

  class LivenessPass {
    const p: Program
    var live: Live
    /** `safehash`: registers live at each safepoint, by block and node. */
    var safe: Snapshots

    /** Copy the first successor's registers and OR in the remaining ones. */
    method LiveOut(b: nat) returns (tmp: RegSet)
      requires WellFormed(p) && |live| == |p.blocks| && b < |p.blocks|
      ensures tmp == Out(p, live, b)
    {
      assert BlockOk(p, b);
      var succs := p.blocks[b].succs;
      tmp := live[succs[0]];
      var j := 1;
      while j < |succs|
        invariant 1 <= j <= |succs|
        invariant tmp == Union(live, succs[..j])
      {
        tmp := tmp + live[succs[j]];
        UnionGrows(live, succs, j);
        j := j + 1;
      }
      assert succs[..|succs|] == succs;
    }

    /** Walk tmp up the block backwards, recording liveness at safepoints. */
    method WalkUp(b: nat, out: RegSet) returns (tmp: RegSet)
      requires WellFormed(p) && b < |p.blocks|
      modifies this`safe
      ensures tmp == LiveAt(p.blocks[b].nodes, 0, out)
      ensures forall k :: 0 <= k < |p.blocks[b].nodes| && p.blocks[b].nodes[k].safepoint ==>
        (b, k) in safe && safe[(b, k)] == LiveAt(p.blocks[b].nodes, k, out)
      ensures forall q, k :: q != b && (q, k) in old(safe) ==> (q, k) in safe && safe[(q, k)] == old(safe)[(q, k)]
      ensures old(safe).Keys <= safe.Keys
    {
      var nodes := p.blocks[b].nodes;
      tmp := out;
      var k := |nodes|;
      while 0 < k
        invariant 0 <= k <= |nodes| && tmp == LiveAt(nodes, k, out)
        invariant forall i :: k <= i < |nodes| && nodes[i].safepoint ==>
          (b, i) in safe && safe[(b, i)] == LiveAt(nodes, i, out)
        invariant forall q, i :: q != b && (q, i) in old(safe) ==> (q, i) in safe && safe[(q, i)] == old(safe)[(q, i)]
        invariant old(safe).Keys <= safe.Keys
      {
        k := k - 1;
        tmp := tmp - nodes[k].defs + nodes[k].uses;
        if nodes[k].safepoint {
          safe := safe[(b, k) := tmp];
        }
      }
    }

    /** Processed blocks that are not pending are stable. */
    ghost predicate Working(done: set<nat>, pending: set<nat>)
      reads this
    {
      && Rising(p, live) && Justified(p, live, done)
      && (forall b :: b in done ==> b < |p.blocks|)
      && (forall b :: b in done && b !in pending ==> Stable(p, live, safe, b))
      && (forall b :: b in done ==> Recorded(p, safe, b))
    }

    /** One block of the worklist. */
    method ProcessBlock(b: nat, work: seq<nat>, ghost done: set<nat>) returns (work': seq<nat>)
      requires b < |p.blocks| && InRange(p, work) && Working(done, Elems(work) + {b})
      modifies this
      ensures InRange(p, work') && work <= work' && Working(done + {b}, Elems(work')) && Leq(old(live), live)
      ensures Room(p, live) < old(Room(p, live)) || (live == old(live) && work' == work)
    {
      assert BlockOk(p, b);
      var out := LiveOut(b);
      var tmp := WalkUp(b, out);
      work' := work;
      ghost var before := live;
      JustifiedStep(p, live, done, b);
      if tmp != live[b] {
        RisingStep(p, live, b);
        RoomShrinks(p, live, b, tmp);
        live := live[b := tmp];
        work' := work + p.blocks[b].preds;
      }
      StableNext(p, before, old(safe), live, safe, b, done, Elems(work) + {b}, Elems(work'));
    }

    /** Standard worklist algorithm: afterwards every block processed at least once is stable. */
    method Drain(list: seq<nat>, ghost done: set<nat>) returns (ghost done': set<nat>)
      requires InRange(p, list) && Working(done, Elems(list))
      modifies this
      ensures Working(done', {}) && done + Elems(list) <= done' && Leq(old(live), live)
    {
      var work := list;
      done' := done;
      while 0 < |work|
        invariant InRange(p, work) && Working(done', Elems(work)) && Leq(old(live), live)
        invariant done <= done' && Elems(list) <= done' + Elems(work)
        decreases Room(p, live), |work|
      {
        var b, rest := RPop(work);
        assert b in Elems(work) && Elems(rest) <= Elems(work);
        work := ProcessBlock(b, rest, done');
        assert Elems(rest) <= Elems(work);
        done' := done' + {b};
      }
    }

    /** Scan for any missing safepoints; heads of blocks and the root block are not looked at. */
    method AnyMissing() returns (missing: bool)
      requires WellFormed(p)
      ensures missing <==> exists b: nat, k: nat ::
        1 <= b < |p.blocks| && 1 <= k < |p.blocks[b].nodes| && p.blocks[b].nodes[k].safepoint && (b, k) !in safe
    {
      var i := 1;
      while i < |p.blocks|
        invariant 1 <= i <= |p.blocks|
        invariant forall b: nat, k: nat ::
          1 <= b < i && 1 <= k < |p.blocks[b].nodes| && p.blocks[b].nodes[k].safepoint ==>
          (b, k) in safe
      {
        var j := 1;
        while j < |p.blocks[i].nodes|
          invariant 1 <= j
          invariant forall k: nat :: 1 <= k < j && k < |p.blocks[i].nodes| && p.blocks[i].nodes[k].safepoint ==>
            (i, k) in safe
        {
          if p.blocks[i].nodes[j].safepoint && (i, j) !in safe {
            return true;
          }
          j := j + 1;
        }
        i := i + 1;
      }
      return false;
    }

    /**
     * Computes liveness and safepoint snapshots.  The outer loop runs at most twice;
     * every processed block satisfies its equation with matching snapshots, values
     * lie below the least fixpoint, and equal it if all blocks were processed.
     */
    method DoLiveness() returns (ghost done: set<nat>, trips: nat)
      requires WellFormed(p)
      modifies this
      ensures 1 <= trips <= 2 && (trips == 2 ==> forall b :: 1 <= b < |p.blocks| ==> b in done)
      ensures Rising(p, live) && forall b :: b in done ==> b < |p.blocks| && Stable(p, live, safe, b)
      ensures forall b: nat, k: nat ::
        1 <= b < |p.blocks| && 1 <= k < |p.blocks[b].nodes| && p.blocks[b].nodes[k].safepoint ==>
        (b, k) in safe
      ensures (forall b :: 0 <= b < |p.blocks| ==> b in done) ==> Fixpoint(p, live) && BelowAll(p, live)
      ensures forall b, k: nat :: b in done && k < |p.blocks[b].nodes| && p.blocks[b].nodes[k].safepoint ==>
        SnapshotIsNeeded(p, safe, done, b, k)
    {
      live := seq(|p.blocks|, _ => {});
      safe := map[];
      assert BlockOk(p, 0);
      done := {};
      var work: seq<nat> := p.blocks[0].preds;
      trips := 0;
      var missing := true;
      while missing
        invariant InRange(p, work) && Working(done, Elems(work)) && trips <= 2
        invariant missing ==> trips <= 1
        invariant !missing ==> work == [] && 1 <= trips
        invariant trips == 1 && missing ==> forall b :: 1 <= b < |p.blocks| ==> b in Elems(work)
        invariant trips == 2 ==> forall b :: 1 <= b < |p.blocks| ==> b in done
        invariant !missing ==> forall b: nat, k: nat ::
          1 <= b < |p.blocks| && 1 <= k < |p.blocks[b].nodes| && p.blocks[b].nodes[k].safepoint ==> (b, k) in safe
        decreases 2 - trips, missing
      {
        done := Drain(work, done);
        trips := trips + 1;
        missing := AnyMissing();
        work := [];
        if missing {
          assert trips == 1 by {
            var b: nat, k: nat :|
              1 <= b < |p.blocks| && 1 <= k < |p.blocks[b].nodes| && p.blocks[b].nodes[k].safepoint && (b, k) !in safe;
            assert b in done ==> Recorded(p, safe, b);
          }
          // Some block was not reached: all of them go on the worklist.
          work := seq(|p.blocks| - 1, i => i + 1);
          forall b | 1 <= b < |p.blocks| ensures b in Elems(work) {
            assert work[b - 1] == b;
          }
        }
      }
      AllStableIsFixpoint(p, live, safe, done);
      forall b, k: nat | b in done && k < |p.blocks[b].nodes| && p.blocks[b].nodes[k].safepoint
        ensures SnapshotIsNeeded(p, safe, done, b, k)
      {
        SnapshotsAreNeeded(p, live, safe, done, b, k);
      }
    }
  }

  lemma AllStableIsFixpoint(p: Program, live: Live, safe: Snapshots, done: set<nat>)
    requires Rising(p, live) && forall b :: b in done ==> b < |p.blocks| && Stable(p, live, safe, b)
    ensures (forall b :: 0 <= b < |p.blocks| ==> b in done) ==> Fixpoint(p, live)
  {
    if forall b :: 0 <= b < |p.blocks| ==> b in done {
      forall b | 0 <= b < |p.blocks| ensures live[b] == In(p, live, b) {
        assert b in done;
      }
    }
  }

  /** Takes the first block off the list; the last one fills its place. */
  method RPop(work: seq<nat>) returns (b: nat, rest: seq<nat>)
    requires 0 < |work|
    ensures Elems(work) == Elems(rest) + {b} && |rest| == |work| - 1
    ensures forall p :: InRange(p, work) ==> InRange(p, rest) && b < |p.blocks|
  {
    b := work[0];
    rest := if |work| == 1 then [] else [work[|work| - 1]] + work[1..|work| - 1];
    forall x | x in work ensures x in Elems(rest) + {work[0]} {
      var i :| 0 <= i < |work| && work[i] == x;
      assert 0 < i < |work| - 1 ==> rest[i] == x;
      assert i == |work| - 1 && 1 < |work| ==> rest[0] == x;
    }
  }

  predicate InRange(p: Program, s: seq<nat>) {
    forall i :: 0 <= i < |s| ==> s[i] < |p.blocks|
  }

  /** Every safepoint of block b has been recorded. */
  predicate Recorded(p: Program, safe: Snapshots, b: nat) {
    b < |p.blocks| && forall k :: 0 <= k < |p.blocks[b].nodes| && p.blocks[b].nodes[k].safepoint ==> (b, k) in safe
  }

  lemma UnionGrows(live: Live, succs: seq<nat>, j: nat)
    requires j < |succs| && forall i :: 0 <= i < |succs| ==> succs[i] < |live|
    ensures Union(live, succs[..j + 1]) == Union(live, succs[..j]) + live[succs[j]]
  {
    forall r ensures r in Union(live, succs[..j + 1]) <==> r in Union(live, succs[..j]) + live[succs[j]] {
      if r in Union(live, succs[..j]) {
        var i :| 0 <= i < j && r in live[succs[..j][i]];
        assert r in live[succs[..j + 1][i]];
      } else if r in live[succs[j]] {
        assert r in live[succs[..j + 1][j]];
      }
      if r in Union(live, succs[..j + 1]) {
        var i :| 0 <= i < j + 1 && r in live[succs[..j + 1][i]];
        assert i < j ==> r in live[succs[..j][i]];
      }
    }
  }
}
