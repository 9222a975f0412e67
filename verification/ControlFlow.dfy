/**
 * Basic blocks, the control-flow graph they form, and the machine that runs a
 * linear list of them (block.cpp, and the label assignment of output.cpp).
 *
 * A block's `succs` entry pairs the successor with the projection (`con`) that
 * leads to it, as the predecessor edge of the successor's head does.  `projs`
 * lists the projection nodes still standing at the end of the block, slot by slot.
 */
module ControlFlow {
  import opened Wrappers

  type BlockId = nat
  type Table = map<BlockId, Block>
  type Rank = map<BlockId, nat>

  const IF_FALSE: nat := 0
  const IF_TRUE: nat := 1
  /** Projection 0 of a no-flip branch is its fall-through. */
  const FALL_THROUGH: nat := 0

  datatype Edge = Edge(con: nat, to: BlockId)

  datatype Ender =
    | Exit                    // return, rethrow, halt: the successor is the root block
    | Goto
    | If(negated: bool)
    | Trap(negated: bool)     // trap based null or range check
    | NullCheck               // no-flip two-way branch
    | Catch                   // no-flip multi-way branch, resolved by table
    | Jump                    // switch

  datatype Block = Block(
    ender: Ender,
    succs: seq<Edge>,
    projs: seq<nat>,
    connector: bool,
    empty: bool,
    hasGoto: bool)

  predicate NoFlip(b: Block) {
    b.ender.Trap? || b.ender.NullCheck? || b.ender.Catch?
  }

  predicate HasCon(b: Block, d: nat) {
    exists j :: 0 <= j < |b.succs| && b.succs[j].con == d
  }

  /** The slot of the edge taken when the block is left through projection d. */
  function Slot(succs: seq<Edge>, d: nat): (j: nat)
    ensures j <= |succs|
    ensures j < |succs| ==> succs[j].con == d
    ensures j == |succs| ==> forall k :: 0 <= k < |succs| ==> succs[k].con != d
  {
    if succs == [] then 0
    else if succs[0].con == d then 0
    else 1 + Slot(succs[1..], d)
  }

  predicate DistinctCons(succs: seq<Edge>) {
    forall j, k :: 0 <= j < k < |succs| ==> succs[j].con != succs[k].con
  }

  predicate TwoWay(succs: seq<Edge>) {
    && |succs| == 2
    && ((succs[0].con == IF_FALSE && succs[1].con == IF_TRUE) || (succs[0].con == IF_TRUE && succs[1].con == IF_FALSE))
  }

  /** The successor lists that each kind of block end can have. */
  predicate Shape(b: Block) {
    && 1 <= |b.succs|
    && DistinctCons(b.succs)
    && match b.ender
       case Exit => |b.succs| == 1
       case Goto => |b.succs| == 1 && b.succs[0].con == FALL_THROUGH
       case If(_) => TwoWay(b.succs)
       case Trap(_) => TwoWay(b.succs)
       case NullCheck => TwoWay(b.succs)
       case Catch => true
       case Jump => 3 <= |b.succs|
  }

  /** Successors are blocks, and chains of connectors come to an end. */
  ghost predicate Grounded(t: Table, rank: Rank) {
    forall b {:trigger t[b].succs} {:trigger GroundedAt(t, rank, b)} :: b in t ==> GroundedAt(t, rank, b)
  }

  ghost predicate GroundedAt(t: Table, rank: Rank, b: BlockId)
    requires b in t
  {
    && (forall j :: 0 <= j < |t[b].succs| ==> t[b].succs[j].to in t)
    && (t[b].connector ==>
          && b in rank && 1 <= |t[b].succs|
          && (t[t[b].succs[0].to].connector ==> t[b].succs[0].to in rank && rank[t[b].succs[0].to] < rank[b]))
  }

  /** `non_connector()`: skip connector blocks along their first successor. */
  function Resolve(t: Table, ghost rank: Rank, b: BlockId): (r: BlockId)
    requires Grounded(t, rank) && b in t
    ensures r in t && !t[r].connector
    decreases if t[b].connector then rank[b] + 1 else 0
  {
    if t[b].connector then Resolve(t, rank, t[b].succs[0].to) else b
  }

  /** path leads from connector to connector along their first successors, to the first block that is none. */
  ghost predicate SkipsTo(t: Table, path: seq<BlockId>) {
    && 1 <= |path| && path[|path| - 1] in t && !t[path[|path| - 1]].connector
    && forall i :: 0 <= i < |path| - 1 ==>
         path[i] in t && t[path[i]].connector && |t[path[i]].succs| > 0 && path[i + 1] == t[path[i]].succs[0].to
  }

  lemma {:induction false} ResolveSkips(t: Table, rank: Rank, b: BlockId) returns (path: seq<BlockId>)
    requires Grounded(t, rank) && b in t
    ensures SkipsTo(t, path) && path[0] == b && path[|path| - 1] == Resolve(t, rank, b)
    decreases if t[b].connector then rank[b] + 1 else 0
  {
    path := [b];
    if t[b].connector {
      var rest := ResolveSkips(t, rank, t[b].succs[0].to);
      path := [b] + rest;
    }
  }

  /** t has the same connectors as t0, with the same successors. */
  ghost predicate KeepsConnectors(t0: Table, t: Table) {
    forall b :: b in t0 ==>
      && b in t
      && t[b].connector == t0[b].connector
      && (t0[b].connector ==> t[b].succs == t0[b].succs)
  }

  lemma {:induction false} ResolveKept(t0: Table, t: Table, rank: Rank, b: BlockId)
    requires Grounded(t0, rank) && Grounded(t, rank) && KeepsConnectors(t0, t) && b in t0
    ensures Resolve(t, rank, b) == Resolve(t0, rank, b)
    decreases if t0[b].connector then rank[b] + 1 else 0
  {
    if t0[b].connector {
      ResolveKept(t0, t, rank, t0[b].succs[0].to);
    }
  }

  // ----- Running the graph -----

  /** The non-connector block that control reaches when b is left through d. */
  ghost function CfgNext(t: Table, rank: Rank, b: BlockId, d: nat): Option<BlockId>
    requires Grounded(t, rank) && b in t
  {
    if t[b].ender.Exit? || !HasCon(t[b], d) then None
    else Some(Resolve(t, rank, t[b].succs[Slot(t[b].succs, d)].to))
  }

  /** The blocks visited from b when the i-th one is left through ds[i]. */
  ghost function CfgRun(t: Table, rank: Rank, b: BlockId, ds: seq<nat>): seq<BlockId>
    requires Grounded(t, rank) && b in t
    decreases |ds|
  {
    if ds == [] then [b]
    else
      match CfgNext(t, rank, b, ds[0])
      case None => [b]
      case Some(n) => [b] + CfgRun(t, rank, n, ds[1..])
  }

  // ----- Running the list -----

  ghost predicate Placed(blocks: seq<BlockId>, t: Table, rank: Rank) {
    && Grounded(t, rank)
    && forall p :: 0 <= p < |blocks| ==> blocks[p] in t && (!t[blocks[p]].connector ==> Shape(t[blocks[p]]))
  }

  /** The block that position i falls into. */
  function NextOf(blocks: seq<BlockId>, i: nat): Option<BlockId> {
    if i + 1 < |blocks| then Some(blocks[i + 1]) else None
  }

  /** How the code emitted for a block hands control on. */
  datatype Route = Stop | Via(slot: nat) | Fall

  /**
   * Branches go to the first successor when the (possibly negated) test holds,
   * tables go by projection, and everything else falls through.
   */
  function RouteOf(b: Block, d: nat): (r: Route)
    requires Shape(b)
    ensures r.Via? ==> r.slot < |b.succs|
  {
    match b.ender
    case Exit => Stop
    case Goto => if b.hasGoto then Via(0) else Fall
    case If(negated) => if (d == IF_TRUE) != negated then Via(0) else Fall
    case Trap(negated) => if (d == IF_TRUE) != negated then Via(0) else Fall
    case NullCheck => if d != FALL_THROUGH then Via(0) else Fall
    case Catch =>
      if d == FALL_THROUGH then Fall
      else if Slot(b.succs, d) == |b.succs| then Stop
      else Via(Slot(b.succs, d))
    case Jump => if Slot(b.succs, d) == |b.succs| then Stop else Via(Slot(b.succs, d))
  }

  /** The block whose code runs after position p, left through d. */
  ghost function LinNext(blocks: seq<BlockId>, t: Table, rank: Rank, p: nat, d: nat): Option<BlockId>
    requires Placed(blocks, t, rank) && p < |blocks| && !t[blocks[p]].connector
  {
    match RouteOf(t[blocks[p]], d)
    case Stop => None
    case Via(j) => Some(Resolve(t, rank, t[blocks[p]].succs[j].to))
    case Fall => NextOf(blocks, p)
  }

  /** The position that control transferred to block n arrives at: the one n is labelled with. */
  ghost function Arrival(blocks: seq<BlockId>, t: Table, labels: map<BlockId, nat>, n: Option<BlockId>): Option<nat> {
    if n.Some? && n.value in labels && labels[n.value] < |blocks| && blocks[labels[n.value]] == n.value
       && n.value in t && !t[n.value].connector
    then Some(labels[n.value])
    else None
  }

  /**
   * The blocks whose code runs from position p.  The i-th block of t0 that runs has
   * outcome ds[i]; blocks that are not in t0 are gotos and have no outcome.
   */
  ghost function LinRun(t0: Table, blocks: seq<BlockId>, t: Table, rank: Rank, labels: map<BlockId, nat>, p: nat,
                        ds: seq<nat>): seq<BlockId>
    requires Placed(blocks, t, rank) && p < |blocks| && !t[blocks[p]].connector
    decreases |ds|, if blocks[p] in t0 then 0 else 1
  {
    var b := blocks[p];
    if b in t0 then
      if ds == [] || !HasCon(t0[b], ds[0]) then [b]
      else match Arrival(blocks, t, labels, LinNext(blocks, t, rank, p, ds[0]))
           case None => [b]
           case Some(q) => [b] + LinRun(t0, blocks, t, rank, labels, q, ds[1..])
    else
      match Arrival(blocks, t, labels, LinNext(blocks, t, rank, p, FALL_THROUGH))
      case None => [b]
      case Some(q) => if blocks[q] in t0 then [b] + LinRun(t0, blocks, t, rank, labels, q, ds) else [b]
  }

  /** The blocks of s that are in t0. */
  ghost function Only(t0: Table, s: seq<BlockId>): seq<BlockId> {
    if s == [] then [] else (if s[0] in t0 then [s[0]] else []) + Only(t0, s[1..])
  }

  /** The position of the block of t0 that runs once control is transferred to n, looking through one goto. */
  ghost function Landing(t0: Table, blocks: seq<BlockId>, t: Table, rank: Rank, labels: map<BlockId, nat>,
                         n: Option<BlockId>): (r: Option<nat>)
    requires Placed(blocks, t, rank)
    ensures r.Some? ==> r.value < |blocks| && blocks[r.value] in t0 && !t[blocks[r.value]].connector
  {
    match Arrival(blocks, t, labels, n)
    case None => None
    case Some(q) =>
      if blocks[q] in t0 then Some(q)
      else match Arrival(blocks, t, labels, LinNext(blocks, t, rank, q, FALL_THROUGH))
           case None => None
           case Some(q') => if blocks[q'] in t0 then Some(q') else None
  }

  lemma OnlyCons(t0: Table, b: BlockId, s: seq<BlockId>)
    ensures Only(t0, [b] + s) == (if b in t0 then [b] else []) + Only(t0, s)
    ensures Only(t0, [b]) == if b in t0 then [b] else []
  {
    assert ([b] + s)[1..] == s;
  }

  /** A goto adds nothing to the blocks of t0 that run. */
  lemma LinRunThroughGoto(t0: Table, blocks: seq<BlockId>, t: Table, rank: Rank, labels: map<BlockId, nat>, q: nat,
                          ds: seq<nat>)
    requires Placed(blocks, t, rank) && q < |blocks| && !t[blocks[q]].connector && blocks[q] !in t0
    ensures Only(t0, LinRun(t0, blocks, t, rank, labels, q, ds)) ==
      var r := Arrival(blocks, t, labels, LinNext(blocks, t, rank, q, FALL_THROUGH));
      if r.Some? && blocks[r.value] in t0 then Only(t0, LinRun(t0, blocks, t, rank, labels, r.value, ds)) else []
  {
    var r := Arrival(blocks, t, labels, LinNext(blocks, t, rank, q, FALL_THROUGH));
    OnlyCons(t0, blocks[q], []);
    if r.Some? && blocks[r.value] in t0 {
      OnlyCons(t0, blocks[q], LinRun(t0, blocks, t, rank, labels, r.value, ds));
      assert LinRun(t0, blocks, t, rank, labels, q, ds) ==
        [blocks[q]] + LinRun(t0, blocks, t, rank, labels, r.value, ds);
    }
  }

  lemma LinRunUnfolds(t0: Table, blocks: seq<BlockId>, t: Table, rank: Rank, labels: map<BlockId, nat>, p: nat,
                      ds: seq<nat>)
    requires Placed(blocks, t, rank) && p < |blocks| && !t[blocks[p]].connector
    requires blocks[p] in t0 && ds != [] && HasCon(t0[blocks[p]], ds[0])
    ensures Only(t0, LinRun(t0, blocks, t, rank, labels, p, ds)) == [blocks[p]] +
      match Landing(t0, blocks, t, rank, labels, LinNext(blocks, t, rank, p, ds[0]))
      case None => []
      case Some(q) => Only(t0, LinRun(t0, blocks, t, rank, labels, q, ds[1..]))
  {
    OnlyCons(t0, blocks[p], []);
    var r := Arrival(blocks, t, labels, LinNext(blocks, t, rank, p, ds[0]));
    if r.Some? {
      OnlyCons(t0, blocks[p], LinRun(t0, blocks, t, rank, labels, r.value, ds[1..]));
      assert LinRun(t0, blocks, t, rank, labels, p, ds) ==
        [blocks[p]] + LinRun(t0, blocks, t, rank, labels, r.value, ds[1..]);
      if blocks[r.value] !in t0 {
        LinRunThroughGoto(t0, blocks, t, rank, labels, r.value, ds[1..]);
      }
    }
  }

  /** The list hands control from position p to where the graph t0 does. */
  ghost predicate StepsLike(t0: Table, blocks: seq<BlockId>, t: Table, rank: Rank, labels: map<BlockId, nat>, p: nat,
                            d: nat)
    requires Grounded(t0, rank) && Placed(blocks, t, rank) && p < |blocks| && blocks[p] in t0 && !t[blocks[p]].connector
  {
    CfgNext(t0, rank, blocks[p], d) ==
      match Landing(t0, blocks, t, rank, labels, LinNext(blocks, t, rank, p, d))
      case None => None
      case Some(q) => Some(blocks[q])
  }

  ghost predicate Simulates(t0: Table, blocks: seq<BlockId>, t: Table, rank: Rank, labels: map<BlockId, nat>)
    requires Grounded(t0, rank) && Placed(blocks, t, rank)
  {
    forall p, d ::
      (0 <= p < |blocks| && 0 <= d && blocks[p] in t0 && !t[blocks[p]].connector && HasCon(t0[blocks[p]], d)) ==>
      StepsLike(t0, blocks, t, rank, labels, p, d)
  }

  /** Step by step agreement makes whole runs agree. */
  lemma {:induction false} SameRun(t0: Table, blocks: seq<BlockId>, t: Table, rank: Rank, labels: map<BlockId, nat>,
                                   p: nat, ds: seq<nat>)
    requires Grounded(t0, rank) && Placed(blocks, t, rank) && Simulates(t0, blocks, t, rank, labels)
    requires p < |blocks| && blocks[p] in t0 && !t[blocks[p]].connector
    ensures Only(t0, LinRun(t0, blocks, t, rank, labels, p, ds)) == CfgRun(t0, rank, blocks[p], ds)
    decreases |ds|
  {
    OnlyCons(t0, blocks[p], []);
    if ds != [] && HasCon(t0[blocks[p]], ds[0]) {
      LinRunUnfolds(t0, blocks, t, rank, labels, p, ds);
      assert StepsLike(t0, blocks, t, rank, labels, p, ds[0]);
      match Landing(t0, blocks, t, rank, labels, LinNext(blocks, t, rank, p, ds[0]))
      case None =>
      case Some(q) => SameRun(t0, blocks, t, rank, labels, q, ds[1..]);
    }
  }
}
