/**
 * Block layout (opto/block.cpp, PhaseBlockLayout): blocks are gathered into traces
 * along fall-through edges, and the traces become the new block list.  Frequencies
 * are arbitrary: they only enter through the order of edges and traces.
 */
module BlockLayout {
  import opened Lists
  import opened Wrappers
  import opened ControlFlow
  import opened FixupFlow
  import opened Traces
  import opened FallThroughs
  import UF = UnionFind
  import opened Sorting
  import opened TraceOrder

  // ----- Layout invariant -----

  ghost predicate RootFirst(root: BlockId, reps: seq<nat>, traces: TraceTable) {
    AtHome(reps, traces, root) && reps[root] == root && traces[root].value.blocks[0] == root
  }

  ghost predicate KindOk(ids: set<BlockId>, conns: set<BlockId>, reps: seq<nat>, x: BlockId, y: BlockId) {
    x in ids && y in ids && x < |reps| && y < |reps| && x in conns ==> (reps[x] == reps[y] <==> y in conns)
  }

  /** Connectors share one trace, and no other block is in it. */
  ghost predicate OneKind(ids: set<BlockId>, conns: set<BlockId>, reps: seq<nat>) {
    forall x: BlockId, y: BlockId :: KindOk(ids, conns, reps, x, y)
  }

  ghost predicate Layout(ids: set<BlockId>, conns: set<BlockId>, root: BlockId, reps: seq<nat>, traces: TraceTable) {
    && Agrees(ids, reps, traces)
    && (root in ids ==> RootFirst(root, reps, traces))
    && OneKind(ids, conns, reps)
    && forall b :: b in ids ==> root <= b
  }

  lemma KindOfId(ids: set<BlockId>, conns: set<BlockId>, root: BlockId, reps: seq<nat>, traces: TraceTable, x: BlockId)
    requires Layout(ids, conns, root, reps, traces) && x in ids
    ensures x < |reps| && reps[x] < |traces| && traces[reps[x]].Some? && x in traces[reps[x]].value.blocks
    ensures reps[x] in ids && reps[x] < |reps| && reps[reps[x]] == reps[x] && (x in conns <==> reps[x] in conns)
    ensures x == traces[reps[x]].value.blocks[0] && x != root ==> reps[x] != root
  {
    assert AtHome(reps, traces, x);
    TraceHasId(ids, reps, traces, reps[x]);
    assert KindOk(ids, conns, reps, x, reps[x]) && KindOk(ids, conns, reps, reps[x], x);
  }

  /** Joining a trace into one of the same kind keeps the layout, if the root block stays in front. */
  lemma LayoutJoin(ids: set<BlockId>, conns: set<BlockId>, root: BlockId, reps: seq<nat>, traces: TraceTable, a: nat,
                   b: nat, p: nat)
    requires Layout(ids, conns, root, reps, traces) && a != b && b != root && a !in conns && b !in conns
    requires a < |traces| && b < |traces| && traces[a].Some? && traces[b].Some? && 0 < p <= |traces[a].value.blocks|
    ensures Layout(ids, conns, root, UF.Merged(reps, Lo(a, b), Hi(a, b)), Joined(traces, a, b, p))
  {
    var reps', traces' := UF.Merged(reps, Lo(a, b), Hi(a, b)), Joined(traces, a, b, p);
    JoinAgrees(ids, reps, traces, a, b, p);
    TraceHasId(ids, reps, traces, a);
    TraceHasId(ids, reps, traces, b);
    if root in ids {
      assert AtHome(reps', traces', root);
      EmbedHolds(traces[a].value.blocks, p, traces[b].value.blocks);
    }
    forall x: BlockId, y: BlockId ensures KindOk(ids, conns, reps', x, y) {
      if x in ids && y in ids {
        KindOfId(ids, conns, root, reps, traces, x);
        KindOfId(ids, conns, root, reps, traces, y);
        assert KindOk(ids, conns, reps, x, y);
      }
    }
  }

  lemma LayoutRotate(ids: set<BlockId>, conns: set<BlockId>, root: BlockId, reps: seq<nat>, traces: TraceTable, a: nat,
                     p: nat)
    requires Layout(ids, conns, root, reps, traces) && a != root
    requires a < |traces| && traces[a].Some? && p <= |traces[a].value.blocks|
    ensures Layout(ids, conns, root, reps, traces[a := Some(Trace(a, Rotated(traces[a].value.blocks, p)))])
  {
    RotateAgrees(ids, reps, traces, a, p);
  }

  lemma HeldTrace(ids: set<BlockId>, conns: set<BlockId>, root: BlockId, reps: seq<nat>, traces: TraceTable,
                  ts: seq<Trace>, i: nat)
    requires Layout(ids, conns, root, reps, traces) && Holds(ts, traces) && i < |ts|
    ensures Pure(conns, ts[i]) && NoDup(ts[i].blocks) && forall x :: x in ts[i].blocks ==> x in ids
  {
    var t := ts[i];
    assert TraceOk(ids, reps, t.id, t);
    forall x | x in t.blocks ensures x in conns <==> t.blocks[0] in conns {
      KindOfId(ids, conns, root, reps, traces, x);
      KindOfId(ids, conns, root, reps, traces, t.blocks[0]);
    }
  }

  /** The block list that the traces make up: each block once, root first, connectors last. */
  ghost predicate Final(ids: set<BlockId>, conns: set<BlockId>, root: BlockId, blocks: seq<BlockId>) {
    NoDup(blocks) && Elems(blocks) == ids && |blocks| > 0 && blocks[0] == root && Suffix(conns, blocks)
  }

  lemma FlatIsFinal(ids: set<BlockId>, conns: set<BlockId>, root: BlockId, reps: seq<nat>, traces: TraceTable,
                    ts: seq<Trace>)
    requires Layout(ids, conns, root, reps, traces) && Holds(ts, traces) && root in ids
    requires |ts| > 0 && root < |traces| && traces[root] == Some(ts[0])
    requires forall i, j :: 0 <= i < j < |ts| && Leads(conns, ts[i]) ==> Leads(conns, ts[j])
    ensures Final(ids, conns, root, Flat(ts))
  {
    FlatIsPermutation(ids, reps, traces, ts);
    forall i | 0 <= i < |ts| ensures Pure(conns, ts[i]) {
      HeldTrace(ids, conns, root, reps, traces, ts, i);
    }
    FlatSuffix(conns, ts);
    assert RootFirst(root, reps, traces);
    assert Flat(ts)[0] == ts[0].blocks[0];
  }

  // ----- Building the first traces -----

  ghost predicate Alone(reps: seq<nat>, traces: TraceTable, b: BlockId) {
    b < |reps| && b < |traces| && reps[b] == b && traces[b].None?
  }

  /** The blocks from position i on are still alone and have no trace. */
  ghost predicate Untouched(list: seq<BlockId>, i: nat, reps: seq<nat>, traces: TraceTable) {
    forall p :: i <= p < |list| ==> Alone(reps, traces, list[p])
  }

  ghost predicate Building(list: seq<BlockId>, conns: set<BlockId>, i: nat, reps: seq<nat>, traces: TraceTable) {
    && 1 <= |list| && i <= |list| && NoDup(list)
    && Layout(Elems(list[..i]), conns, list[0], reps, traces)
    && Untouched(list, i, reps, traces)
  }

  /** Building, folded: it opens where Building is mentioned. */
  ghost predicate BuiltUpto(list: seq<BlockId>, conns: set<BlockId>, i: nat, reps: seq<nat>, traces: TraceTable) {
    forall k: nat :: k == i ==> Building(list, conns, k, reps, traces)
  }

  lemma BuiltNone(list: seq<BlockId>, conns: set<BlockId>, reps: seq<nat>, traces: TraceTable)
    requires 1 <= |list| && NoDup(list) && Untouched(list, 0, reps, traces)
    requires forall k :: 0 <= k < |traces| ==> traces[k].None?
    ensures BuiltUpto(list, conns, 0, reps, traces)
  {
    assert list[..0] == [];
  }

  lemma NextIds(list: seq<BlockId>, i: nat)
    requires NoDup(list) && i < |list|
    ensures Elems(list[..i + 1]) == Elems(list[..i]) + {list[i]} && list[i] !in Elems(list[..i])
    ensures i > 0 ==> list[0] in Elems(list[..i])
  {
    assert list[..i + 1] == list[..i] + [list[i]];
    assert i > 0 ==> list[..i][0] == list[0];
  }

  /** A new trace for the next block, which is the first one of its kind or not a connector. */
  lemma BuildingStart(list: seq<BlockId>, conns: set<BlockId>, i: nat, reps: seq<nat>, traces: TraceTable)
    requires Building(list, conns, i, reps, traces) && i < |list| && list[0] <= list[i]
    requires forall p :: 0 <= p < i ==> list[p] !in conns
    ensures Building(list, conns, i + 1, reps, traces[list[i] := Some(Trace(list[i], [list[i]]))])
  {
    var n := list[i];
    NextIds(list, i);
    var ids := Elems(list[..i]);
    var traces' := traces[n := Some(Trace(n, [n]))];
    assert Alone(reps, traces, n);
    StartAgrees(ids, reps, traces, n);
    assert forall x :: x in ids ==> x !in conns;
    forall x: BlockId, y: BlockId ensures KindOk(ids + {n}, conns, reps, x, y) {
      if y in ids {
        KindOfId(ids, conns, list[0], reps, traces, y);
      }
    }
    assert Untouched(list, i + 1, reps, traces') by {
      forall p | i + 1 <= p < |list| ensures Alone(reps, traces', list[p]) {
        assert Alone(reps, traces, list[p]);
      }
    }
    if i > 0 {
      assert RootFirst(list[0], reps, traces');
    }
  }

  lemma AppendKinds(ids: set<BlockId>, conns: set<BlockId>, root: BlockId, reps: seq<nat>, traces: TraceTable, k: nat,
                    n: BlockId)
    requires Layout(ids, conns, root, reps, traces) && n !in ids && Alone(reps, traces, n)
    requires k < |traces| && traces[k].Some? && (k in conns <==> n in conns)
    ensures OneKind(ids + {n}, conns, UF.Merged(reps, k, n))
  {
    TraceHasId(ids, reps, traces, k);
    forall x: BlockId, y: BlockId ensures KindOk(ids + {n}, conns, UF.Merged(reps, k, n), x, y) {
      if x in ids {
        KindOfId(ids, conns, root, reps, traces, x);
        assert KindOk(ids, conns, reps, x, y) && KindOk(ids, conns, reps, x, k);
      }
      if y in ids {
        KindOfId(ids, conns, root, reps, traces, y);
        assert KindOk(ids, conns, reps, k, y);
      }
    }
  }

  /** The next block is appended to the trace of a block of its kind. */
  lemma BuildingAppend(list: seq<BlockId>, conns: set<BlockId>, i: nat, reps: seq<nat>, traces: TraceTable, k: nat)
    requires Building(list, conns, i, reps, traces) && 0 < i < |list| && list[0] <= list[i]
    requires k < |traces| && traces[k].Some? && (k in conns <==> list[i] in conns)
    ensures Building(list, conns, i + 1, UF.Merged(reps, k, list[i]),
      traces[k := Some(Trace(k, traces[k].value.blocks + [list[i]]))])
  {
    var n := list[i];
    NextIds(list, i);
    var ids := Elems(list[..i]);
    var reps', traces' := UF.Merged(reps, k, n), traces[k := Some(Trace(k, traces[k].value.blocks + [n]))];
    assert Alone(reps, traces, n);
    AppendAgrees(ids, reps, traces, k, n);
    TraceHasId(ids, reps, traces, k);
    AppendKinds(ids, conns, list[0], reps, traces, k, n);
    assert Untouched(list, i + 1, reps', traces') by {
      forall p | i + 1 <= p < |list| ensures Alone(reps', traces', list[p]) {
        assert Alone(reps, traces, list[p]);
      }
    }
    assert RootFirst(list[0], reps', traces') by {
      assert AtHome(reps, traces, list[0]);
    }
  }

  // ----- The layout phase -----

  ghost function Conns(t: Table): set<BlockId> {
    set b | b in t && t[b].connector
  }

  /** The block list: root first, connectors last, numbers from 1 to its length, increasing within each kind. */
  ghost predicate Orderly(list: seq<BlockId>, t: Table) {
    && 1 <= |list| && NoDup(list) && Elems(list) == t.Keys && !t[list[0]].connector
    && (forall p :: 0 <= p < |list| ==> list[p] in t && list[0] <= list[p] <= |list|)
    && (forall p: nat, q: nat :: InOrder(list, t, p, q))
  }

  ghost predicate InOrder(list: seq<BlockId>, t: Table, p: nat, q: nat) {
    p < q < |list| && list[p] in t && list[q] in t ==>
      && (t[list[p]].connector ==> t[list[q]].connector)
      && (t[list[p]].connector == t[list[q]].connector ==> list[p] < list[q])
  }

  /** In an orderly list, blocks before one that is not a connector are not connectors. */
  lemma OrderlyStart(list: seq<BlockId>, t: Table, i: nat, reps: seq<nat>, traces: TraceTable)
    requires Orderly(list, t) && i < |list| && BuiltUpto(list, Conns(t), i, reps, traces)
    requires i > 0 ==> !t[list[i - 1]].connector
    ensures Alone(reps, traces, list[i])
    ensures BuiltUpto(list, Conns(t), i + 1, reps, traces[list[i] := Some(Trace(list[i], [list[i]]))])
  {
    assert Building(list, Conns(t), i, reps, traces);
    forall p | 0 <= p < i ensures list[p] !in Conns(t) {
      assert InOrder(list, t, p, i - 1);
    }
    BuildingStart(list, Conns(t), i, reps, traces);
    assert Alone(reps, traces, list[i]);
  }

  lemma OrderlyAppend(list: seq<BlockId>, t: Table, i: nat, reps: seq<nat>, traces: TraceTable, k: nat)
    requires Orderly(list, t) && 0 < i < |list| && BuiltUpto(list, Conns(t), i, reps, traces)
    requires k in t && t[k].connector == t[list[i]].connector && k < |traces| && traces[k].Some?
    ensures BuiltUpto(list, Conns(t), i + 1, UF.Merged(reps, k, list[i]),
      traces[k := Some(Trace(k, traces[k].value.blocks + [list[i]]))])
    ensures k < |reps| && reps[k] == k && traces[k].value.id == k && Alone(reps, traces, list[i])
  {
    assert Building(list, Conns(t), i, reps, traces);
    BuildingAppend(list, Conns(t), i, reps, traces, k);
    TraceHasId(Elems(list[..i]), reps, traces, k);
    assert Alone(reps, traces, list[i]);
  }

  ghost predicate InfoOk(t: Table, rank: Rank, root: BlockId, info: map<BlockId, Info>, b: BlockId)
    requires Grounded(t, rank) && b in t
  {
    && b in info
    && (forall j :: 0 <= j < |t[b].succs| && j in info[b].fall ==> Resolve(t, rank, t[b].succs[j].to) != root)
    && (!t[b].connector ==> 1 <= |t[b].succs|)
    && (!t[b].connector && info[b].numFallThroughs == 2 ==> t[b].ender.If? && TwoWay(t[b].succs) && MatchedProjs(t[b]))
  }

  /** No block falls through into the root block; two fall-throughs mean an If. */
  ghost predicate InfosOk(t: Table, rank: Rank, root: BlockId, info: map<BlockId, Info>)
    requires Grounded(t, rank)
  {
    forall b :: b in t ==> InfoOk(t, rank, root, info, b)
  }

  ghost predicate EdgeOk(ids: set<BlockId>, conns: set<BlockId>, root: BlockId, e: CFGEdge) {
    e.from in ids && e.from !in conns && e.to in ids && e.to !in conns && e.to != root
  }

  ghost predicate EdgesOk(ids: set<BlockId>, conns: set<BlockId>, root: BlockId, edges: seq<CFGEdge>) {
    forall i :: 0 <= i < |edges| ==> EdgeOk(ids, conns, root, edges[i])
  }

  datatype Oracle = Oracle(
    rpo: BlockId -> int,
    infrequent: set<(BlockId, BlockId)>,
    edgeBefore: (CFGEdge, CFGEdge) -> bool,
    hotter: (Trace, Trace) -> bool)

  ghost function OpenEdges(edges: seq<CFGEdge>): set<int> {
    set i | 0 <= i < |edges| && edges[i].state == Open
  }

  function IndexOf(s: seq<BlockId>, x: BlockId): (p: nat)
    requires x in s
    ensures p < |s| && s[p] == x
  {
    if s[0] == x then 0 else 1 + IndexOf(s[1..], x)
  }

  /** If the block at position p falls into a block with one predecessor entry, that block is the next one. */
  ghost predicate ChainAt(list: seq<BlockId>, t: Table, rank: Rank, info: map<BlockId, Info>, p: nat) {
    p < |list| && Grounded(t, rank) && t.Keys <= info.Keys && list[p] in t && |t[list[p]].succs| > 0 &&
      0 in info[list[p]].fall ==>
      var n := SkipConnectors(t, rank, info, t[list[p]].succs[0].to);
      info[n].numPreds == 1 ==> p + 1 < |list| && list[p + 1] == n
  }

  ghost predicate Chained(list: seq<BlockId>, t: Table, rank: Rank, info: map<BlockId, Info>) {
    forall p: nat :: ChainAt(list, t, rank, info, p)
  }

  /** The block before position i falls into a block that does not follow it. */
  ghost predicate Unchained(list: seq<BlockId>, t: Table, rank: Rank, info: map<BlockId, Info>, i: nat) {
    i > 0 && forall p: nat :: p + 1 == i ==> !ChainAt(list, t, rank, info, p)
  }

  /** When all traces have been found, an edge leads from the end of a trace to the start of one. */
  lemma EdgePrimed(root: BlockId, reps: seq<nat>, traces: TraceTable, t: Table, rank: Rank, info: map<BlockId, Info>,
                   e: CFGEdge)
    requires Layout(t.Keys, Conns(t), root, reps, traces) && EdgeOk(t.Keys, Conns(t), root, e)
    requires Chains(t, rank, info, traces) && EntriesCounted(t, info) && Leaves(t, rank, info, traces, e, |traces|)
    ensures AtEnds(traces, e)
  {
    var a: nat :| a != |traces| && EndsWith(traces, a, e.from);
    forall k: nat | k < |traces| && traces[k].Some? && e.to in traces[k].value.blocks
      ensures traces[k].value.blocks[0] in t && !t[traces[k].value.blocks[0]].connector
    {
      assert TraceOk(t.Keys, reps, k, traces[k].value);
      KindOfId(t.Keys, Conns(t), root, reps, traces, e.to);
      KindOfId(t.Keys, Conns(t), root, reps, traces, traces[k].value.blocks[0]);
    }
    TargetStarts(t.Keys, reps, t, rank, info, traces, e, a);
  }

  /** ts are the traces of the table below k in the order of their ids. */
  ghost predicate Compacted(traces: TraceTable, ts: seq<Trace>, k: nat, root: BlockId) {
    && k <= |traces| && root < |traces| && traces[root].Some?
    && (forall i :: 0 <= i < |ts| ==> ts[i].id < k && traces[ts[i].id] == Some(ts[i]))
    && (forall i, j :: 0 <= i < j < |ts| ==> ts[i].id < ts[j].id)
    && (forall j :: 0 <= j < k && traces[j].Some? ==> traces[j].value in ts)
    && (if k <= root then forall j :: 0 <= j < k ==> traces[j].None? else |ts| > 0 && traces[root] == Some(ts[0]))
  }

  lemma CompactedNext(traces: TraceTable, ts: seq<Trace>, k: nat, root: BlockId)
    requires Compacted(traces, ts, k, root) && k < |traces| && traces[k].Some? && traces[k].value.id == k && root <= k
    ensures Compacted(traces, ts + [traces[k].value], k + 1, root)
  {
    var more := ts + [traces[k].value];
    assert more[|ts|] == traces[k].value;
    forall j | 0 <= j < k && traces[j].Some? ensures traces[j].value in more {
      assert traces[j].value in ts;
    }
  }

  class PhaseBlockLayout {
    const list: seq<BlockId>
    const table0: Table
    const info: map<BlockId, Info>
    ghost const rank: Rank
    /** BlockLayoutRotateLoops */
    const rotateLoops: bool
    /** Reverse post order numbers, and the order of edges and traces by frequency, can be anything. */
    const oracle: Oracle

    const uf: UF.UnionFind
    var traces: TraceTable
    var edges: seq<CFGEdge>
    /** The block list and the blocks of the graph being laid out. */
    var blocks: seq<BlockId>
    var table: Table

    ghost predicate CfgOf(l: seq<BlockId>) {
      Orderly(l, table0) && Grounded(table0, rank) && InfosOk(table0, rank, l[0], info) && EntriesCounted(table0, info)
    }

    /** The list and what is known about its blocks.  (Folded: it opens where CfgOf is mentioned.) */
    ghost predicate Cfg() {
      && |list| > 0 && (forall p :: 0 <= p < |list| ==> list[p] in table0)
      && forall l: seq<BlockId> :: l == list ==> CfgOf(l)
    }

    ghost predicate Shaped()
      reads this`traces, uf, uf.indices
    {
      uf.Valid() && |traces| == |list| + 1 <= uf.cnt
    }

    ghost function Parts(): (reps: seq<nat>)
      requires Shaped()
      reads this`traces, uf, uf.indices
      ensures |reps| == uf.cnt
    {
      UF.Reps(uf.Links())
    }

    /** The first i blocks of the list are in traces. */
    ghost predicate Built(i: nat)
      reads this`traces, uf, uf.indices
    {
      Shaped() && BuiltUpto(list, Conns(table0), i, Parts(), traces)
    }

    ghost predicate NotedAt(k: nat)
      reads this`traces, this`edges
    {
      Recorded(table0, rank, info, traces, edges, k)
    }

    /**
     * Traces are chains, and edges leave the ends of traces other than k. (Folded: it opens where NotedAt is
     * mentioned.)
     */
    ghost predicate Noted(k: nat)
      reads this`traces, this`edges
    {
      forall x: nat :: x == k ==> NotedAt(x)
    }

    /** No traces, no edges, and every block on its own. */
    constructor (list: seq<BlockId>, table: Table, info: map<BlockId, Info>, ghost rank: Rank, rotateLoops: bool,
                 oracle: Oracle)
      requires Orderly(list, table)
      ensures this.list == list && table0 == table && this.info == info && this.rank == rank
      ensures this.rotateLoops == rotateLoops && this.oracle == oracle
      ensures fresh(uf) && fresh(uf.indices)
      ensures Built(0) && Noted(|traces|) && edges == [] && this.table == table
    {
      this.list, table0, this.info, this.rank, this.rotateLoops, this.oracle :=
        list, table, info, rank, rotateLoops, oracle;
      var size := |list| + 1;
      var u := new UF.UnionFind(size);
      u.Reset(size);
      uf := u;
      traces := seq(size, _ => None);
      edges := [];
      blocks, this.table := list, table;
      new;
      NothingYet();
    }

    lemma NothingYet()
      requires Orderly(list, table0) && uf.Valid() && uf.cnt > |list|
      requires forall i :: 0 <= i <= |list| ==> UF.Root(uf.Links(), i) == i
      requires traces == seq(|list| + 1, _ => None) && edges == []
      ensures Built(0) && Noted(|traces|)
    {
      forall p | 0 <= p < |list| ensures Alone(Parts(), traces, list[p]) {
        assert Parts()[list[p]] == list[p];
      }
      BuiltNone(list, Conns(table0), Parts(), traces);
    }

    method StartTrace(i: nat)
      requires Cfg() && Built(i) && Noted(|traces|) && i < |list|
      requires i > 0 ==> !table0[list[i - 1]].connector
      modifies this`traces
      ensures Built(i + 1) && Noted(list[i]) && list[i] < |traces| && traces[list[i]] == Some(Trace(list[i], [list[i]]))
    {
      assert NotedAt(|traces|);
      assert CfgOf(list);
      OrderlyStart(list, table0, i, Parts(), traces);
      RecordedStart(table0, rank, info, traces, edges, list[i]);
      traces := traces[list[i] := Some(Trace(list[i], [list[i]]))];
      assert NotedAt(list[i]);
    }

    /** tr->append(n) with uf->map and the cleared table entry. */
    method AppendTo(k: nat, i: nat)
      requires Cfg() && Built(i) && 0 < i < |list| && k in table0 && k < list[i]
      requires k < |traces| && traces[k].Some? && table0[k].connector == table0[list[i]].connector
      modifies this`traces, uf.indices
      ensures Built(i + 1) && traces == old(traces)[k := Some(Trace(k, old(traces)[k].value.blocks + [list[i]]))]
    {
      ghost var reps := Parts();
      assert CfgOf(list);
      OrderlyAppend(list, table0, i, reps, traces, k);
      assert reps[list[i]] == UF.Root(uf.Links(), list[i]) && reps[k] == UF.Root(uf.Links(), k);
      ghost var traces' := traces[k := Some(Trace(k, traces[k].value.blocks + [list[i]]))];
      assert traces'[list[i]].None?;
      traces := traces[k := Some(traces[k].value.(blocks := traces[k].value.blocks + [list[i]]))];
      uf.Map(list[i], k);
      traces := traces[list[i] := None];
      assert traces == traces';
    }

    lemma InfoKnown(b: BlockId)
      requires Cfg() && b in table0
      ensures Grounded(table0, rank) && table0.Keys <= info.Keys && (!table0[b].connector ==> 1 <= |table0[b].succs|)
    {
      assert CfgOf(list);
      assert forall x :: x in table0 ==> InfoOk(table0, rank, list[0], info, x);
      assert InfoOk(table0, rank, list[0], info, b);
    }

    /** The block that b leads to first, single-entry connectors skipped, is entered from elsewhere as well. */
    ghost predicate MergesAt(b: BlockId) {
      && Grounded(table0, rank) && table0.Keys <= info.Keys && b in table0 && 1 <= |table0[b].succs|
      && info[SkipConnectors(table0, rank, info, table0[b].succs[0].to)].numPreds != 1
    }

    /** The block that b falls into alone, if it is known to follow. */
    method ChainNext(i: nat) returns (ok: bool, more: bool)
      requires Cfg() && 0 < i <= |list| && !table0[list[i - 1]].connector && list[i - 1] in info
      requires 0 in info[list[i - 1]].fall
      ensures more ==>
        ok && i < |list| && !table0[list[i]].connector && FallsAlone(table0, rank, info, list[i - 1], list[i])
      ensures !ok ==> Unchained(list, table0, rank, info, i)
      ensures ok && !more ==> MergesAt(list[i - 1])
    {
      var b := list[i - 1];
      InfoKnown(b);
      var n := SkipConnectors(table0, rank, info, table0[b].succs[0].to);
      more := info[n].numPreds == 1 && i < |list| && list[i] == n;
      ok := info[n].numPreds != 1 || more;
    }

    /** One more block for the trace k that was started at position i0 - 1, if there is one. */
    method ChainStep(i0: nat, i: nat) returns (ok: bool, more: bool)
      requires Cfg() && 0 < i0 <= i <= |list| && InTrace(i0, i) && list[i - 1] in info && 0 in info[list[i - 1]].fall
      modifies this`traces, uf.indices
      ensures more ==> ok && i < |list| && InTrace(i0, i + 1)
      ensures !more ==> InTrace(i0, i)
      ensures !ok ==> Unchained(list, table0, rank, info, i)
      ensures ok && !more ==> MergesAt(list[i - 1])
    {
      ok, more := ChainNext(i);
      if more {
        assert CfgOf(list);
        assert InOrder(list, table0, i0 - 1, i);
        AppendNoted(list[i0 - 1], i);
      }
    }

    /** AppendTo, seen from the chains and the recorded edges. */
    method AppendNoted(k: nat, i: nat)
      requires Cfg() && Built(i) && Noted(k) && 0 < i < |list| && k in table0 && k < list[i]
      requires StartsWith(traces, k, k) && table0[k].connector == table0[list[i]].connector
      requires table0[k].connector ||
        (EndsWith(traces, k, list[i - 1]) && FallsAlone(table0, rank, info, list[i - 1], list[i]))
      modifies this`traces, uf.indices
      ensures Built(i + 1) && Noted(k) && StartsWith(traces, k, k) && EndsWith(traces, k, list[i])
    {
      assert NotedAt(k);
      RecordedAppend(table0, rank, info, traces, edges, k, list[i]);
      AppendTo(k, i);
      assert NotedAt(k);
    }

    /** The first i blocks are in traces, the last of them in the trace that was started at position i0 - 1. */
    ghost predicate InTrace(i0: nat, i: nat)
      reads this`traces, this`edges, uf, uf.indices
    {
      && 0 < i0 <= i <= |list| && Built(i) && Noted(list[i0 - 1])
      && list[i0 - 1] in table0 && !table0[list[i0 - 1]].connector
      && list[i - 1] in table0 && !table0[list[i - 1]].connector
      && StartsWith(traces, list[i0 - 1], list[i0 - 1]) && EndsWith(traces, list[i0 - 1], list[i - 1])
    }

    /**
     * Appends blocks in a one-to-one relation with their predecessor to the trace that was just started.
     * ok is false where the source stops because such a block is not the next one on the list.
     */
    method ExtendChain(i0: nat) returns (ok: bool, i: nat, b: BlockId, nfallthru: nat)
      requires Cfg() && 0 < i0 <= |list| && InTrace(i0, i0)
      modifies this`traces, uf.indices
      ensures i0 <= i <= |list| && InTrace(i0, i) && b == list[i - 1]
      ensures !ok ==> Unchained(list, table0, rank, info, i)
      ensures ok ==> nfallthru != 1 || b !in info || 0 !in info[b].fall || MergesAt(b)
    {
      i, b, ok := i0, list[i0 - 1], true;
      nfallthru := NumFallThroughs(b);
      while nfallthru == 1 && b in info && 0 in info[b].fall
        invariant i0 <= i <= |list| && InTrace(i0, i) && b == list[i - 1] && ok
        decreases |list| - i
      {
        var more;
        ok, more := ChainStep(i0, i);
        if !more {
          break;
        }
        // The count is that of the block before, not of the one just appended.
        nfallthru := NumFallThroughs(b);
        b := list[i];
        i := i + 1;
      }
    }

    ghost predicate EdgesFit()
      reads this`edges
    {
      |list| > 0 && EdgesOk(table0.Keys, Conns(table0), list[0], edges)
    }

    /** A CFGEdge for each outgoing edge of b, the end of trace k, that could be a fall-through. */
    method AddEdges(b: BlockId, nfallthru: nat, ghost k: nat)
      requires Cfg() && b in table0 && !table0[b].connector && EdgesFit() && Noted(k) && EndsWith(traces, k, b)
      modifies this`edges
      ensures EdgesFit() && Noted(|traces|)
      ensures Grounded(table0, rank) && b in info
      ensures edges == old(edges) + if nfallthru > 0 then FallEdges(table0, rank, info, b, |table0[b].succs|) else []
    {
      InfoKnown(b);
      NotedForAll(k);
      var j := 0;
      while nfallthru > 0 && j < |table0[b].succs|
        invariant 0 <= j <= |table0[b].succs| && EdgesFit() && Noted(|traces|)
        invariant edges == old(edges) + FallEdges(table0, rank, info, b, j) && (nfallthru == 0 ==> j == 0)
      {
        if j in info[b].fall {
          AddEdge(b, j, k);
        }
        j := j + 1;
      }
    }

    method AddEdge(b: BlockId, j: nat, ghost k: nat)
      requires Cfg() && b in table0 && !table0[b].connector && EdgesFit() && Noted(|traces|) && EndsWith(traces, k, b)
      requires Grounded(table0, rank) && b in info && j < |table0[b].succs| && j in info[b].fall
      modifies this`edges
      ensures EdgesFit() && Noted(|traces|)
      ensures edges == old(edges) + [CFGEdge(b, Resolve(table0, rank, table0[b].succs[j].to), Open)]
    {
      assert CfgOf(list);
      assert InfoOk(table0, rank, list[0], info, b);
      assert NotedAt(|traces|);
      var e := CFGEdge(b, Resolve(table0, rank, table0[b].succs[j].to), Open);
      assert LeadsTo(table0, rank, info, e);
      assert Leaves(table0, rank, info, traces, e, |traces|);
      edges := edges + [e];
      assert NotedAt(|traces|);
    }

    method GroupConnectors(i0: nat)
      requires Cfg() && 0 < i0 <= |list| && Built(i0) && table0[list[i0 - 1]].connector
      requires Noted(list[i0 - 1]) && StartsWith(traces, list[i0 - 1], list[i0 - 1])
      modifies this`traces, uf.indices
      ensures Built(|list|) && Noted(list[i0 - 1])
    {
      var k, i := list[i0 - 1], i0;
      while i < |list|
        invariant i0 <= i <= |list| && Built(i) && Noted(k) && StartsWith(traces, k, k)
      {
        assert CfgOf(list);
        assert InOrder(list, table0, i0 - 1, i);
        AppendNoted(k, i);
        i := i + 1;
      }
      assert i == |list|;
    }

    lemma NotedForAll(k: nat)
      requires Noted(k)
      ensures Noted(|traces|)
    {
      assert NotedAt(k);
      RecordedAll(table0, rank, info, traces, edges, k);
      assert NotedAt(|traces|);
    }

    /** One trace from position i0 on, with the edges that leave its end. */
    method FindTrace(i0: nat) returns (ok: bool, i: nat)
      requires Cfg() && i0 < |list| && Built(i0) && Noted(|traces|) && (i0 > 0 ==> !table0[list[i0 - 1]].connector)
      requires EdgesFit()
      modifies this`traces, this`edges, uf.indices
      ensures i0 < i <= |list| && Built(i) && Noted(|traces|) && (i < |list| ==> !table0[list[i - 1]].connector)
      ensures !ok ==> Unchained(list, table0, rank, info, i)
      ensures EdgesFit()
    {
      StartTrace(i0);
      if table0[list[i0]].connector {
        GroupConnectors(i0 + 1);
        NotedForAll(list[i0]);
        ok, i := true, |list|;
      } else {
        ok, i := ExtendAndLink(i0 + 1);
      }
    }

    method ExtendAndLink(i0: nat) returns (ok: bool, i: nat)
      requires Cfg() && 0 < i0 <= |list| && InTrace(i0, i0) && EdgesFit()
      modifies this`traces, this`edges, uf.indices
      ensures i0 <= i <= |list| && Built(i) && Noted(|traces|) && !table0[list[i - 1]].connector && EdgesFit()
      ensures !ok ==> Unchained(list, table0, rank, info, i)
    {
      var b, nfallthru;
      ok, i, b, nfallthru := ExtendChain(i0);
      AddEdges(b, nfallthru, list[i0 - 1]);
    }

    /** All blocks are in traces, and every edge recorded is a fall-through that leaves the end of its trace. */
    method FindEdges() returns (ok: bool)
      requires Cfg() && Built(0) && Noted(|traces|) && edges == []
      modifies this`traces, this`edges, uf.indices
      ensures ok ==> Built(|list|) && Noted(|traces|) && EdgesFit()
      ensures Chained(list, table0, rank, info) ==> ok
    {
      var i := 0;
      while i < |list|
        invariant i <= |list| && Built(i) && Noted(|traces|) && (0 < i < |list| ==> !table0[list[i - 1]].connector)
        invariant EdgesFit()
      {
        ok, i := FindTrace(i);
        if !ok {
          assert !ChainAt(list, table0, rank, info, i - 1);
          return;
        }
      }
      assert i == |list|;
      ok := true;
    }

    // ----- Growing and merging traces -----

    ghost predicate LaidAs(root: BlockId)
      reads this`traces, uf, uf.indices
    {
      Shaped() && Layout(Elems(list), Conns(table0), root, Parts(), traces)
    }

    /**
     * All blocks are in traces, and the table agrees with the partition. (Folded: it opens where LaidAs is mentioned.)
     */
    ghost predicate Laid()
      reads this`traces, uf, uf.indices
    {
      |list| > 0 && Shaped() && forall root: BlockId :: root == list[0] ==> LaidAs(root)
    }

    /** trace(b): the id of the trace that contains b. */
    method TraceOf(b: BlockId) returns (k: nat)
      requires Laid() && b in Elems(list)
      modifies uf.indices
      ensures Laid() && Parts() == old(Parts()) && b < |Parts()| && k == Parts()[b]
      ensures k < |traces| && traces[k].Some? && traces[k].value.id == k && b in traces[k].value.blocks
      ensures b !in Conns(table0) ==> k !in Conns(table0)
      ensures traces[k].value.blocks[0] == b && b != list[0] ==> k != list[0]
    {
      assert LaidAs(list[0]);
      ghost var reps := Parts();
      KindOfId(Elems(list), Conns(table0), list[0], reps, traces, b);
      TraceHasId(Elems(list), reps, traces, reps[b]);
      k := uf.Find(b);
    }

    method UnionTraces(updated: nat, old_: nat)
      requires Shaped() && updated < |traces| && old_ < |traces| && updated != old_ && traces[updated].Some?
      requires Parts()[updated] == updated && Parts()[old_] == old_ && traces[updated].value.id == updated
      modifies this`traces, uf.indices
      ensures Shaped() && traces == Unioned(old(traces), updated, old_)
      ensures Parts() == UF.Merged(old(Parts()), Lo(updated, old_), Hi(updated, old_))
    {
      ghost var reps := Parts();
      assert reps[updated] == UF.Root(uf.Links(), updated) && reps[old_] == UF.Root(uf.Links(), old_);
      var lo, hi := updated, old_;
      if updated > old_ {
        lo, hi := old_, updated;
        // The trace that stays lives under the smaller id.
        traces := traces[lo := Some(traces[updated].value.(id := lo))];
      }
      uf.Union(lo, hi);
      traces := traces[hi := None];
    }

    /** Puts the trace at b into the trace at a before position p, and unites them. */
    method JoinTraces(a: nat, b: nat, p: nat)
      requires Laid() && a != b && b != list[0] && a !in Conns(table0) && b !in Conns(table0)
      requires a < |traces| && b < |traces| && traces[a].Some? && traces[b].Some? && 0 < p <= |traces[a].value.blocks|
      modifies this`traces, uf.indices
      ensures Laid() && traces == Joined(old(traces), a, b, p)
    {
      assert LaidAs(list[0]);
      LayoutJoin(Elems(list), Conns(table0), list[0], Parts(), traces, a, b, p);
      TraceHasId(Elems(list), Parts(), traces, a);
      TraceHasId(Elems(list), Parts(), traces, b);
      traces := traces[a := Some(Trace(a, Embed(traces[a].value.blocks, p, traces[b].value.blocks)))];
      UnionTraces(a, b);
    }

    ghost predicate Linked()
      reads this`edges
    {
      |list| > 0 && EdgesOk(Elems(list), Conns(table0), list[0], edges)
    }

    method SetState(i: nat, state: EdgeState)
      requires i < |edges| && Linked() && state != Open
      modifies this`edges
      ensures Linked() && edges == old(edges)[i := old(edges)[i].(state := state)]
      ensures OpenEdges(edges) == old(OpenEdges(edges)) - {i}
    {
      edges := edges[i := edges[i].(state := state)];
    }

    /** Every edge leads from the end of a trace to the start of one. */
    ghost predicate Primed()
      reads this`traces, this`edges
    {
      forall i :: 0 <= i < |edges| ==> AtEnds(traces, edges[i])
    }

    method SortEdges()
      requires Linked() && Primed() && TotalPreorder(oracle.edgeBefore)
      modifies this`edges
      ensures Linked() && Primed()
      ensures multiset(edges) == multiset(old(edges)) && Sorted(edges, oracle.edgeBefore)
    {
      var sorted := Sort(edges, oracle.edgeBefore);
      SameMembers(edges, sorted);
      forall i | 0 <= i < |sorted|
        ensures EdgeOk(Elems(list), Conns(table0), list[0], sorted[i]) && AtEnds(traces, sorted[i])
      {
        assert sorted[i] in sorted;
        var k :| 0 <= k < |edges| && edges[k] == sorted[i];
      }
      edges := sorted;
    }

    function NumFallThroughs(b: BlockId): nat {
      if b in info then info[b].numFallThroughs else 0
    }

    /**
     * Trace k ends where a loop back to targ does.  If targ is the head of the trace, rotate it so that the
     * loop ends in a two-way branch, when it has one and does not end in one already.
     */
    method Backedge(k: nat, targ: BlockId) returns (rotated: bool, ghost p: nat)
      requires Laid() && k < |traces| && traces[k].Some? && |traces[k].value.blocks| > 0 && targ != list[0]
      modifies this`traces
      ensures Laid()
      ensures var s := old(traces)[k].value.blocks;
        && rotated == (rotateLoops && s[0] == targ && NumFallThroughs(s[|s| - 1]) < 2 && HasTwoWay(s, 0))
        && traces == (if rotated && p <= |s| then old(traces)[k := Some(Trace(k, Rotated(s, p)))] else old(traces))
        && (rotated ==> 0 < p < |s| && NumFallThroughs(s[p - 1]) == 2 && !HasTwoWay(s, p))
    {
      rotated, p := false, 0;
      var s := traces[k].value.blocks;
      if s[0] == targ && rotateLoops && NumFallThroughs(s[|s| - 1]) < 2 {
        var at := LastTwoWay(s);
        if at != |s| && at != 0 {
          rotated, p := true, at;
          RotateAt(k, at);
        }
      }
    }

    /** Some block of s from position p on can fall into either of two successors. */
    ghost predicate HasTwoWay(s: seq<BlockId>, p: nat) {
      exists q :: p <= q < |s| && s[q] in info && info[s[q]].numFallThroughs == 2
    }

    /** The position behind the last block of s with two fall-throughs, or 0. */
    method LastTwoWay(s: seq<BlockId>) returns (p: nat)
      ensures p <= |s| && !HasTwoWay(s, p) && (p > 0 ==> NumFallThroughs(s[p - 1]) == 2)
    {
      p := |s|;
      while p > 0 && NumFallThroughs(s[p - 1]) != 2
        invariant p <= |s| && forall q :: p <= q < |s| ==> NumFallThroughs(s[q]) != 2
      {
        p := p - 1;
      }
    }

    method RotateAt(k: nat, p: nat)
      requires Laid() && k < |traces| && traces[k].Some? && p <= |traces[k].value.blocks|
      requires |traces[k].value.blocks| > 0 && traces[k].value.blocks[0] != list[0]
      modifies this`traces
      ensures Laid() && traces == old(traces)[k := Some(Trace(k, Rotated(old(traces)[k].value.blocks, p)))]
    {
      assert LaidAs(list[0]);
      LayoutRotate(Elems(list), Conns(table0), list[0], Parts(), traces, k, p);
      TraceHasId(Elems(list), Parts(), traces, k);
      traces := traces[k := Some(traces[k].value.(blocks := Rotated(traces[k].value.blocks, p)))];
      assert LaidAs(list[0]);
    }

    /** Edges are not grown along backwards unless loops are rotated. */
    ghost predicate Exempt(e: CFGEdge) {
      !rotateLoops && oracle.rpo(e.to) <= oracle.rpo(e.from)
    }

    /** Nothing is left to do for e: it is not open, not eligible, or does not join two traces. */
    ghost predicate SettledEdge(tr: TraceTable, e: CFGEdge) {
      e.state == Open && !Exempt(e) ==> !Joinable(tr, e)
    }

    /** Edge i was looked at: left alone, or closed and possibly used to append or insert a trace. */
    ghost predicate LookedAt(tr: TraceTable, es: seq<CFGEdge>, i: nat, tr': TraceTable, es': seq<CFGEdge>) {
      && i < |es| == |es'| && SettledEdge(tr', es'[i])
      && (forall j :: 0 <= j < |es| && j != i ==> es'[j] == es[j])
      && (tr' == tr || Appended(tr, tr') || Inserted(tr, tr'))
    }

    ghost predicate Appended(tr: TraceTable, tr': TraceTable) {
      exists a: nat, b: nat :: IsAppend(tr, tr', a, b)
    }

    ghost predicate Inserted(tr: TraceTable, tr': TraceTable) {
      exists a: nat, b: nat, p: nat :: IsInsertion(tr, tr', a, b, p)
    }

    lemma SettledStays(tr: TraceTable, es: seq<CFGEdge>, i: nat, tr': TraceTable, es': seq<CFGEdge>, j: nat)
      requires LookedAt(tr, es, i, tr', es') && j < |es| && j != i && SettledEdge(tr, es[j])
      ensures SettledEdge(tr', es'[j])
    {
      if Joinable(tr', es[j]) {
        if Appended(tr, tr') {
          var a: nat, b: nat :| IsAppend(tr, tr', a, b);
          AppendJoinsNoMore(tr, tr', a, b, es[j]);
        } else if Inserted(tr, tr') {
          var a: nat, b: nat, p: nat :| IsInsertion(tr, tr', a, b, p);
          InsertionJoinsNoMore(tr, tr', a, b, p, es[j]);
        }
      }
    }

    /** e needs no more looking at, whatever becomes of the traces. */
    ghost predicate Dealt(e: CFGEdge) {
      e.state != Open || Exempt(e)
    }

    /**
     * One open edge of grow_traces: it may close a loop or join two traces at their ends.  One that leads from the
     * end of a trace to the start of one is dealt with for good.
     */
    method GrowAlong(i: nat) returns (rotated: bool)
      requires Laid() && Linked() && i < |edges|
      modifies this`traces, this`edges, uf.indices
      ensures Laid() && Linked() && |edges| == |old(edges)|
      ensures OpenEdges(edges) <= old(OpenEdges(edges)) && (rotated ==> i !in OpenEdges(edges))
      ensures forall j :: 0 <= j < |edges| && j != i ==> edges[j] == old(edges)[j]
      ensures !rotated ==> LookedAt(old(traces), old(edges), i, traces, edges)
      ensures AtEnds(old(traces), old(edges)[i]) ==> Dealt(edges[i])
    {
      rotated := false;
      if !rotateLoops && oracle.rpo(edges[i].to) <= oracle.rpo(edges[i].from) {
        return;
      }
      var src, targ := EndsOf(i);
      var blocks := traces[src].value.blocks;
      if blocks[|blocks| - 1] == edges[i].from && src == targ {
        rotated := CloseLoop(i, targ);
      } else if blocks[|blocks| - 1] == edges[i].from && traces[targ].value.blocks[0] == edges[i].to {
        Append(i, src, targ);
      } else {
        LeftAlone(i, src, targ);
      }
    }

    lemma LeftAlone(i: nat, src: nat, targ: nat)
      requires Laid() && i < |edges| && EndsIn(src, edges[i].from) && EndsIn(targ, edges[i].to)
      requires EdgeOk(Elems(list), Conns(table0), list[0], edges[i])
      requires !(EndsWith(traces, src, edges[i].from) && (src == targ || StartsWith(traces, targ, edges[i].to)))
      ensures LookedAt(traces, edges, i, traces, edges) && !AtEnds(traces, edges[i])
    {
      assert LaidAs(list[0]);
      NotJoinable(Elems(list), Parts(), traces, edges[i], src, targ);
    }

    /** k is a trace of blocks that are not connectors, and b is one of them. */
    ghost predicate EndsIn(k: nat, b: BlockId)
      reads this`traces
    {
      && k < |traces| && traces[k].Some? && b in traces[k].value.blocks && k !in Conns(table0)
      && |list| > 0 && (traces[k].value.blocks[0] == b && b != list[0] ==> k != list[0])
    }

    /** The traces that edge i leaves and enters. */
    method EndsOf(i: nat) returns (src: nat, targ: nat)
      requires Laid() && Linked() && i < |edges|
      modifies uf.indices
      ensures Laid() && EndsIn(src, edges[i].from) && EndsIn(targ, edges[i].to)
      ensures EdgeOk(Elems(list), Conns(table0), list[0], edges[i])
    {
      assert EdgeOk(Elems(list), Conns(table0), list[0], edges[i]);
      src := TraceOf(edges[i].from);
      targ := TraceOf(edges[i].to);
    }

    method CloseLoop(i: nat, k: nat) returns (rotated: bool)
      requires Laid() && Linked() && i < |edges| && EndsIn(k, edges[i].to) && edges[i].to != list[0]
      modifies this`traces, this`edges
      ensures Laid() && Linked() && edges == old(edges)[i := old(edges)[i].(state := Interior)]
      ensures OpenEdges(edges) == old(OpenEdges(edges)) - {i} && (!rotated ==> traces == old(traces))
    {
      var targ := edges[i].to;
      SetState(i, Interior);
      ghost var p;
      rotated, p := Backedge(k, targ);
    }

    method Append(i: nat, a: nat, b: nat)
      requires Laid() && Linked() && i < |edges| && a != b && b != list[0] && a !in Conns(table0) && b !in Conns(table0)
      requires a < |traces| && b < |traces| && traces[a].Some? && traces[b].Some?
      requires |traces[a].value.blocks| > 0 && |traces[b].value.blocks| > 0
      modifies this`traces, this`edges, uf.indices
      ensures Laid() && Linked() && edges == old(edges)[i := old(edges)[i].(state := Connected)]
      ensures OpenEdges(edges) == old(OpenEdges(edges)) - {i}
      ensures IsAppend(old(traces), traces, a, b)
    {
      SetState(i, Connected);
      JoinTraces(a, b, |traces[a].value.blocks|);
    }

    /** Nothing is left to do for the edges up to i. */
    ghost predicate SettledUpto(i: nat)
      reads this`traces, this`edges
    {
      forall j: nat :: j < i && j < |edges| ==> SettledEdge(traces, edges[j])
    }

    /** The first edge leads from end to start as long as it has not been looked at, and is dealt with afterwards. */
    ghost predicate FirstEdge(i: nat)
      reads this`traces, this`edges
    {
      |edges| > 0 ==> if i == 0 then AtEnds(traces, edges[0]) else Dealt(edges[0])
    }

    /** Edge i, and the edge to look at next: the second one, if a loop was rotated. */
    method GrowNext(i: nat) returns (next: nat)
      requires Laid() && Linked() && i < |edges| && SettledUpto(i) && FirstEdge(i)
      modifies this`traces, this`edges, uf.indices
      ensures Laid() && Linked() && SettledUpto(next) && FirstEdge(next)
      ensures OpenEdges(edges) <= old(OpenEdges(edges)) && |edges| == |old(edges)|
      ensures OpenEdges(edges) == old(OpenEdges(edges)) ==> next == i + 1
    {
      next := i;
      if edges[i].state == Open {
        ghost var tr, es := traces, edges;
        assert i in OpenEdges(edges);
        var rotated := GrowAlong(i);
        if rotated {
          next := 0;
        } else {
          forall j: nat | j < i + 1 ensures SettledEdge(traces, edges[j]) {
            if j < i {
              SettledStays(tr, es, i, traces, edges, j);
            }
          }
        }
      }
      next := next + 1;
    }

    /**
     * Appends traces together via open edges; a rotated loop makes it look at the edges again, from the second
     * one on.  The first one needs no second look: in the end no open, eligible edge joins two traces.
     */
    method GrowTraces()
      requires Laid() && Linked() && Primed() && TotalPreorder(oracle.edgeBefore)
      modifies this`traces, this`edges, uf.indices
      ensures Laid() && Linked() && SettledUpto(|edges|)
    {
      SortEdges();
      GrowSorted();
    }

    method GrowSorted()
      requires Laid() && Linked() && Primed()
      modifies this`traces, this`edges, uf.indices
      ensures Laid() && Linked() && SettledUpto(|edges|)
    {
      var i := 0;
      while i < |edges|
        invariant Laid() && Linked() && 0 <= i && SettledUpto(i) && FirstEdge(i)
        decreases OpenEdges(edges), |edges| - i
      {
        i := GrowNext(i);
      }
    }

    method RootTrace() returns (k: nat)
      requires Laid()
      modifies uf.indices
      ensures Laid() && k == list[0]
    {
      assert list[0] in Elems(list);
      assert LaidAs(list[0]) && RootFirst(list[0], Parts(), traces);
      k := TraceOf(list[0]);
    }

    /** The target's trace goes into the source's trace behind the source block. */
    method InsertAfter(i: nat, src: nat, targ: nat) returns (ghost p: nat)
      requires Laid() && Linked() && i < |edges| && EndsIn(src, edges[i].from) && EndsIn(targ, edges[i].to)
      requires src != targ && targ != list[0]
      modifies this`traces, this`edges, uf.indices
      ensures Laid() && Linked() && edges == old(edges)[i := old(edges)[i].(state := Connected)]
      ensures p < |old(traces)[src].value.blocks| && old(traces)[src].value.blocks[p] == old(edges)[i].from
      ensures traces == Joined(old(traces), src, targ, p + 1)
    {
      var at := IndexOf(traces[src].value.blocks, edges[i].from);
      p := at;
      SetState(i, Connected);
      JoinTraces(src, targ, at + 1);
    }

    /** The source's trace goes into the target's trace before the target block, unless it is the root's. */
    method InsertBefore(i: nat, src: nat, targ: nat) returns (ghost p: nat)
      requires Laid() && Linked() && i < |edges| && EndsIn(src, edges[i].from) && EndsIn(targ, edges[i].to)
      requires src != targ && traces[targ].value.blocks[0] != edges[i].to
      modifies this`traces, this`edges, uf.indices
      ensures Laid() && Linked()
      ensures edges == if src == list[0] then old(edges) else old(edges)[i := old(edges)[i].(state := Connected)]
      ensures p < |old(traces)[targ].value.blocks| && old(traces)[targ].value.blocks[p] == old(edges)[i].to
      ensures traces == if src == list[0] then old(traces) else Joined(old(traces), targ, src, p)
    {
      var at := IndexOf(traces[targ].value.blocks, edges[i].to);
      p := at;
      var root := RootTrace();
      if src != root {
        SetState(i, Connected);
        JoinTraces(targ, src, at);
      }
    }

    /** Traces are appended even without a fall-through, but the root entry stays at the beginning. */
    method AppendLoosely(i: nat, src: nat, targ: nat)
      requires Laid() && Linked() && i < |edges| && EndsIn(src, edges[i].from) && EndsIn(targ, edges[i].to)
      requires src != targ
      modifies this`traces, this`edges, uf.indices
      ensures Laid() && Linked() && |edges| == |old(edges)|
      ensures traces == if targ == list[0] then old(traces)
        else Joined(old(traces), src, targ, |old(traces)[src].value.blocks|)
      ensures LooselyJoined(old(traces), old(edges), i, traces, edges)
    {
      TraceIds();
      var root := RootTrace();
      if targ != root {
        RootTraceGrows(traces, src, targ);
        Append(i, src, targ);
      }
    }

    lemma RootTraceGrows(tr: TraceTable, a: nat, b: nat)
      requires a < |tr| && b < |tr| && tr[a].Some? && tr[b].Some? && a != b && |list| > 0 && list[0] <= a && list[0] < b
      ensures forall x :: InRootTrace(tr, x) ==> InRootTrace(Joined(tr, a, b, |tr[a].value.blocks|), x)
    {
      EmbedHolds(tr[a].value.blocks, |tr[a].value.blocks|, tr[b].value.blocks);
    }

    /** One open edge of merge_traces. */
    method MergeAlong(i: nat, fallThruOnly: bool)
      requires Laid() && Linked() && i < |edges| && edges[i].state == Open
      requires fallThruOnly ==> SettledEdge(traces, edges[i])
      modifies this`traces, this`edges, uf.indices
      ensures Laid() && Linked() && |edges| == |old(edges)|
      ensures fallThruOnly ==> LookedAt(old(traces), old(edges), i, traces, edges) && !Mergeable(traces, edges[i])
      ensures !fallThruOnly ==> LooselyJoined(old(traces), old(edges), i, traces, edges)
    {
      assert EdgeOk(Elems(list), Conns(table0), list[0], edges[i]);
      var src, targ := EndsOf(i);
      if src == targ {
        SetState(i, Interior);
      } else if fallThruOnly {
        var _ := MergeAtEnd(i, src, targ);
      } else {
        AppendLoosely(i, src, targ);
      }
    }

    /**
     * A trace other than the root's ends with e's source, or one starts with its target, and e may join them to others.
     */
    ghost predicate Mergeable(tr: TraceTable, e: CFGEdge) {
      e.state == Open && !Exempt(e) && |list| > 0 &&
      ((exists b: nat :: StartsWith(tr, b, e.to)) || exists a: nat :: a != list[0] && EndsWith(tr, a, e.from))
    }

    ghost predicate InRootTrace(tr: TraceTable, x: BlockId) {
      |list| > 0 && list[0] < |tr| && tr[list[0]].Some? && x in tr[list[0]].value.blocks
    }

    /** Edge i was looked at, and stays open only if its target is in the root's trace, which only grows. */
    ghost predicate LooselyJoined(tr: TraceTable, es: seq<CFGEdge>, i: nat, tr': TraceTable, es': seq<CFGEdge>) {
      && i < |es| == |es'| && (es'[i].state == Open ==> InRootTrace(tr', es'[i].to))
      && (forall j :: 0 <= j < |es| && j != i ==> es'[j] == es[j])
      && forall x :: InRootTrace(tr, x) ==> InRootTrace(tr', x)
    }

    /** Block x is in trace k and in no other. */
    lemma OnlyTrace(k: nat, x: BlockId)
      requires Laid() && EndsIn(k, x) && x in Elems(list)
      ensures forall a: nat :: EndsWith(traces, a, x) || StartsWith(traces, a, x) ==> a == k
    {
      assert LaidAs(list[0]);
      forall a: nat | EndsWith(traces, a, x) || StartsWith(traces, a, x) ensures a == k {
        UniqueTrace(Elems(list), Parts(), traces, x, k);
        UniqueTrace(Elems(list), Parts(), traces, x, a);
      }
    }

    lemma UnmergeableStays(tr: TraceTable, es: seq<CFGEdge>, i: nat, tr': TraceTable, es': seq<CFGEdge>, j: nat)
      requires LookedAt(tr, es, i, tr', es') && j < |es| && j != i && !Mergeable(tr, es[j]) && |list| > 0
      requires forall k :: 0 <= k < |tr| && tr[k].Some? ==> list[0] <= k
      ensures !Mergeable(tr', es'[j])
    {
      var e := es[j];
      forall y: nat
        ensures StartsWith(tr', y, e.to) ==> exists z: nat :: StartsWith(tr, z, e.to)
        ensures EndsWith(tr', y, e.from) && y != list[0] ==> exists z: nat :: z != list[0] && EndsWith(tr, z, e.from)
      {
        if Appended(tr, tr') {
          var a: nat, b: nat :| IsAppend(tr, tr', a, b);
          AppendEnds(tr, tr', a, b, list[0], y, e.to);
          AppendEnds(tr, tr', a, b, list[0], y, e.from);
        } else if Inserted(tr, tr') {
          var a: nat, b: nat, p: nat :| IsInsertion(tr, tr', a, b, p);
          InsertionEnds(tr, tr', a, b, p, list[0], y, e.to);
          InsertionEnds(tr, tr', a, b, p, list[0], y, e.from);
        }
      }
    }

    /**
     * An edge that leaves the end of a trace or enters the start of one lets one trace be put into the other.
     * It never does both: such an edge was handled when traces were grown.
     */
    method MergeAtEnd(i: nat, src: nat, targ: nat) returns (merged: bool)
      requires Laid() && Linked() && i < |edges| && EndsIn(src, edges[i].from) && EndsIn(targ, edges[i].to)
      requires src != targ
      requires edges[i].to != list[0] && edges[i].state == Open && SettledEdge(traces, edges[i])
      modifies this`traces, this`edges, uf.indices
      ensures Laid() && Linked() && LookedAt(old(traces), old(edges), i, traces, edges)
      ensures merged ==>
        EndsWith(old(traces), src, old(edges)[i].from) != StartsWith(old(traces), targ, old(edges)[i].to)
      ensures !merged && !Exempt(old(edges)[i]) ==>
        !EndsWith(old(traces), src, old(edges)[i].from) && !StartsWith(old(traces), targ, old(edges)[i].to)
      ensures !Mergeable(traces, edges[i])
    {
      assert EdgeOk(Elems(list), Conns(table0), list[0], edges[i]);
      OnlyTrace(src, edges[i].from);
      OnlyTrace(targ, edges[i].to);
      ghost var tr, e := traces, edges[i];
      var srcBlocks := traces[src].value.blocks;
      var srcAtTail := srcBlocks[|srcBlocks| - 1] == edges[i].from;
      var targAtStart := traces[targ].value.blocks[0] == edges[i].to;
      if (!srcAtTail && !targAtStart) || (!rotateLoops && oracle.rpo(edges[i].to) <= oracle.rpo(edges[i].from)) {
        NotMergeable(traces, edges[i], src, targ);
        return false;
      }
      assert !JoinableBy(traces, edges[i], src, targ);
      Insert(i, src, targ, targAtStart);
      if edges[i].state == Open {
        NotMergeable(tr, e, src, targ);
      }
      return true;
    }

    lemma NotMergeable(tr: TraceTable, e: CFGEdge, src: nat, targ: nat)
      requires |list| > 0
      requires forall a: nat :: (StartsWith(tr, a, e.to) ==> a == targ) && (EndsWith(tr, a, e.from) ==> a == src)
      requires Exempt(e) || (!StartsWith(tr, targ, e.to) && (EndsWith(tr, src, e.from) ==> src == list[0]))
      ensures !Mergeable(tr, e)
    {
    }

    /** One of the two traces goes into the other, at a place inside it. */
    method Insert(i: nat, src: nat, targ: nat, targAtStart: bool)
      requires Laid() && Linked() && i < |edges| && EndsIn(src, edges[i].from) && EndsIn(targ, edges[i].to)
      requires src != targ
      requires edges[i].to != list[0] && targAtStart == (traces[targ].value.blocks[0] == edges[i].to)
      requires targAtStart ==> !EndsWith(traces, src, edges[i].from)
      requires SettledEdge(traces, edges[i])
      modifies this`traces, this`edges, uf.indices
      ensures Laid() && Linked() && LookedAt(old(traces), old(edges), i, traces, edges)
      ensures edges[i].state == Open ==> traces == old(traces) && edges == old(edges) && !targAtStart && src == list[0]
    {
      ghost var p;
      if targAtStart {
        p := InsertAfter(i, src, targ);
        assert IsInsertion(old(traces), traces, src, targ, p + 1);
      } else {
        p := InsertBefore(i, src, targ);
        assert traces == old(traces) || IsInsertion(old(traces), traces, targ, src, p);
      }
    }

    /** The first i edges have been merged along as far as they can be. */
    ghost predicate MergedUpto(i: nat, fallThruOnly: bool)
      reads this`traces, this`edges
    {
      forall j: nat :: j < i && j < |edges| ==>
        if fallThruOnly then (edges[j].from, edges[j].to) in oracle.infrequent || !Mergeable(traces, edges[j])
        else edges[j].state == Open ==> InRootTrace(traces, edges[j].to)
    }

    /**
     * Merges traces.  With fallThruOnly, no open eligible edge comes to join two traces at their ends, and none that is
     * frequent is left at the start of a trace or at the end of one other than the root's; without, the edges left open
     * lead into the root's trace.
     */
    method MergeTraces(fallThruOnly: bool)
      requires Laid() && Linked() && (fallThruOnly ==> SettledUpto(|edges|))
      modifies this`traces, this`edges, uf.indices
      ensures Laid() && Linked() && (fallThruOnly ==> SettledUpto(|edges|))
      ensures MergedUpto(|edges|, fallThruOnly)
    {
      for i := 0 to |edges|
        invariant Laid() && Linked() && |edges| == |old(edges)| && (fallThruOnly ==> SettledUpto(|edges|))
        invariant MergedUpto(i, fallThruOnly)
      {
        var e := edges[i];
        if e.state == Open && !(fallThruOnly && (e.from, e.to) in oracle.infrequent) {
          ghost var tr, es := traces, edges;
          TraceIds();
          MergeAlong(i, fallThruOnly);
          if fallThruOnly {
            AllStaySettled(tr, es, i);
          }
          MergedNext(tr, es, i, fallThruOnly);
        }
      }
    }

    lemma MergedNext(tr: TraceTable, es: seq<CFGEdge>, i: nat, fallThruOnly: bool)
      requires |list| > 0 && forall k :: 0 <= k < |tr| && tr[k].Some? ==> list[0] <= k
      requires if fallThruOnly then LookedAt(tr, es, i, traces, edges) && !Mergeable(traces, edges[i])
               else LooselyJoined(tr, es, i, traces, edges)
      requires forall j: nat :: j < i && j < |es| ==>
        if fallThruOnly then (es[j].from, es[j].to) in oracle.infrequent || !Mergeable(tr, es[j])
        else es[j].state == Open ==> InRootTrace(tr, es[j].to)
      ensures MergedUpto(i + 1, fallThruOnly)
    {
      forall j: nat | j < i && j < |edges| && fallThruOnly && !Mergeable(tr, es[j])
        ensures !Mergeable(traces, edges[j])
      {
        UnmergeableStays(tr, es, i, traces, edges, j);
      }
    }

    lemma AllStaySettled(tr: TraceTable, es: seq<CFGEdge>, i: nat)
      requires LookedAt(tr, es, i, traces, edges)
      requires forall j: nat :: j < |es| ==> SettledEdge(tr, es[j])
      ensures SettledUpto(|edges|)
    {
      forall j: nat | j < |edges| ensures SettledEdge(traces, edges[j]) {
        if j != i {
          SettledStays(tr, es, i, traces, edges, j);
        }
      }
    }

    // ----- The new block list -----

    /** The traces of the table in the order of their ids; the root's comes first. */
    method CompactTraces() returns (ts: seq<Trace>)
      requires Laid()
      ensures Holds(ts, traces) && |ts| > 0 && list[0] < |traces| && traces[list[0]] == Some(ts[0])
    {
      ts := [];
      TraceIds();
      for k := 0 to |traces|
        invariant Compacted(traces, ts, k, list[0])
      {
        if traces[k].Some? {
          CompactedNext(traces, ts, k, list[0]);
          ts := ts + [traces[k].value];
        }
      }
    }

    /** Traces are numbered by their place in the table, and the root's comes first. */
    lemma TraceIds()
      requires Laid()
      ensures list[0] < |traces| && traces[list[0]].Some?
      ensures forall k :: 0 <= k < |traces| && traces[k].Some? ==> traces[k].value.id == k && list[0] <= k
    {
      assert list[0] in Elems(list);
      assert LaidAs(list[0]);
      assert RootFirst(list[0], Parts(), traces);
      forall k: nat | k < |traces| && traces[k].Some? ensures traces[k].value.id == k && list[0] <= k {
        TraceHasId(Elems(list), Parts(), traces, k);
      }
    }

    predicate IsConnectorTrace(t: Trace) {
      |t.blocks| > 0 && t.blocks[0] in table0 && table0[t.blocks[0]].connector
    }

    /** trace_frequency_order: connectors go at the end, the others by frequency. */
    predicate TraceBefore(a: Trace, b: Trace) {
      if IsConnectorTrace(a) != IsConnectorTrace(b) then IsConnectorTrace(b) else oracle.hotter(a, b)
    }

    /** Sorts all traces but the first. */
    method SortTraces(ts: seq<Trace>) returns (r: seq<Trace>)
      requires |ts| > 0 && NoDup(ts) && TotalPreorder(oracle.hotter) && !IsConnectorTrace(ts[0])
      ensures |r| == |ts| && r[0] == ts[0] && NoDup(r) && forall t :: t in r <==> t in ts
      ensures forall i, j :: 0 <= i < j < |r| && IsConnectorTrace(r[i]) ==> IsConnectorTrace(r[j])
      ensures forall i, j :: 1 <= i < j < |r| && !IsConnectorTrace(r[j]) ==> oracle.hotter(r[i], r[j])
    {
      var before := (a, b) => TraceBefore(a, b);
      assert TotalPreorder(before);
      var rest := Sort(ts[1..], before);
      SameMembers(ts[1..], rest);
      r := [ts[0]] + rest;
      assert ts == [ts[0]] + ts[1..];
      assert multiset(r) == multiset(ts);
      PermutedNoDup(ts, r);
      SameMembers(ts, r);
      forall i, j | 0 <= i < j < |r| && IsConnectorTrace(r[i]) ensures IsConnectorTrace(r[j]) {
        assert before(rest[i - 1], rest[j - 1]);
      }
      forall i, j | 1 <= i < j < |r| && !IsConnectorTrace(r[j]) ensures oracle.hotter(r[i], r[j]) {
        assert before(rest[i - 1], rest[j - 1]);
      }
    }

    ghost predicate Flipped()
      reads this`table
    {
      Grounded(table0, rank) && FlippedFrom(table0, table)
    }

    /** The blocks that can fall into either of two successors. */
    ghost function TwoWayBlocks(): set<BlockId> {
      set b | b in table0 && !table0[b].connector && b in info && info[b].numFallThroughs == 2
    }

    /** Block b is followed by next: make sure it falls into its second successor. */
    method FixSense(b: BlockId, next: BlockId)
      requires Flipped() && b in table && b in table0 && table[b] == table0[b] && !table0[b].connector
      requires NumFallThroughs(b) == 2 ==> table0[b].ender.If? && TwoWay(table0[b].succs) && MatchedProjs(table0[b])
      modifies this`table
      ensures Flipped() && ChangedIn(old(table), table, [b])
      ensures Grounded(table, rank) && (NumFallThroughs(b) == 2 ==> Sensed(table, rank, b, next))
    {
      FlippedGrounded(table0, rank, table);
      if NumFallThroughs(b) == 2 {
        var bs0 := Resolve(table, rank, table[b].succs[0].to);
        if next == bs0 {
          FlipOne(table0, rank, table, b);
          ResolveKept(table, table[b := Flip(table[b])], rank, table[b].succs[0].to);
          table := table[b := Flip(table[b])];
        }
      }
    }

    /** One block of trace t goes on the new list. */
    method FixupBlock(t: Trace, i: nat)
      requires |list| > 0 && Flipped() && InfosOk(table0, rank, list[0], info)
      requires i < |t.blocks| && t.blocks[i] in table0 && t.blocks[i] in table
      requires table[t.blocks[i]] == table0[t.blocks[i]]
      modifies this`table, this`blocks
      ensures Flipped() && ChangedIn(old(table), table, [t.blocks[i]])
      ensures SensedAt(rank, TwoWayBlocks(), table, t.blocks, i)
      ensures blocks == old(blocks) + [t.blocks[i]]
    {
      var b := t.blocks[i];
      blocks := blocks + [b];
      if !table0[b].connector && i + 1 != |t.blocks| {
        assert InfoOk(table0, rank, list[0], info, b);
        FixSense(b, t.blocks[i + 1]);
      }
    }

    /**
     * The first i blocks of t, which were as in t0, have been dealt with. (Folded: it opens where FixedAt is
     * mentioned.)
     */
    ghost predicate FixedUpto(t: Trace, t0: Table, i: nat)
      reads this`table
    {
      forall k: nat :: k == i ==> FixedAt(t, t0, k)
    }

    ghost predicate FixedAt(t: Trace, t0: Table, i: nat)
      reads this`table
    {
      && i <= |t.blocks| && Flipped() && AsBefore(table0, t0, t.blocks) && NoDup(t.blocks)
      && ChangedIn(t0, table, t.blocks[..i]) && SensedUpto(rank, TwoWayBlocks(), table, t.blocks, i)
    }

    method FixupNext(t: Trace, i: nat, ghost t0: Table)
      requires |list| > 0 && i < |t.blocks| && FixedUpto(t, t0, i) && Grounded(table0, rank)
      requires InfosOk(table0, rank, list[0], info)
      modifies this`table, this`blocks
      ensures FixedUpto(t, t0, i + 1) && blocks == old(blocks) + [t.blocks[i]]
    {
      assert FixedAt(t, t0, i);
      ghost var was := table;
      NextAsBefore(table0, t0, was, t.blocks, i);
      FixupBlock(t, i);
      ChangedNext(t0, was, table, t.blocks, i);
      SensedNext(table0, rank, TwoWayBlocks(), was, table, t.blocks, i);
    }

    /** fixup_blocks: the blocks of t go on the new list, each falling into its second successor if it can. */
    method FixupBlocks(t: Trace)
      requires |list| > 0 && Flipped() && InfosOk(table0, rank, list[0], info) && NoDup(t.blocks)
      requires AsBefore(table0, table, t.blocks)
      modifies this`table, this`blocks
      ensures Flipped() && ChangedIn(old(table), table, t.blocks) && blocks == old(blocks) + t.blocks
      ensures SensedUpto(rank, TwoWayBlocks(), table, t.blocks, |t.blocks|)
    {
      ghost var t0 := table;
      FixedStart(t);
      for i := 0 to |t.blocks|
        invariant FixedUpto(t, t0, i) && blocks == old(blocks) + t.blocks[..i]
      {
        FixupNext(t, i, t0);
        assert t.blocks[..i + 1] == t.blocks[..i] + [t.blocks[i]];
      }
      assert t.blocks[..|t.blocks|] == t.blocks;
      FixedEnd(t, t0);
    }

    lemma FixedStart(t: Trace)
      requires Flipped() && NoDup(t.blocks) && AsBefore(table0, table, t.blocks)
      ensures FixedUpto(t, table, 0)
    {
    }

    lemma FixedEnd(t: Trace, t0: Table)
      requires FixedUpto(t, t0, |t.blocks|)
      ensures Flipped() && ChangedIn(t0, table, t.blocks)
      ensures SensedUpto(rank, TwoWayBlocks(), table, t.blocks, |t.blocks|)
    {
      assert FixedAt(t, t0, |t.blocks|);
      assert t.blocks[..|t.blocks|] == t.blocks;
    }

    /** Puts the traces on the new list, one after the other. */
    method ListTraces(ts: seq<Trace>)
      requires |list| > 0 && Flipped() && InfosOk(table0, rank, list[0], info) && Separate(ts)
      requires forall j :: 0 <= j < |ts| ==> AsBefore(table0, table, ts[j].blocks)
      modifies this`table, this`blocks
      ensures Flipped() && blocks == Flat(ts)
    {
      blocks := [];
      for i := 0 to |ts|
        invariant Flipped() && blocks == Flat(ts[..i])
        invariant forall j :: i <= j < |ts| ==> AsBefore(table0, table, ts[j].blocks)
      {
        ghost var was := table;
        assert AsBefore(table0, table, ts[i].blocks);
        FixupBlocks(ts[i]);
        FlatAppend(ts[..i], ts[i]);
        assert ts[..i + 1] == ts[..i] + [ts[i]];
        forall j | i < j < |ts| ensures AsBefore(table0, table, ts[j].blocks) {
          OthersAsBefore(table0, was, table, ts, i, j);
        }
      }
      assert ts[..|ts|] == ts;
    }

    /** The traces in their final order. */
    method OrderTraces() returns (ts: seq<Trace>)
      requires Laid() && Elems(list) == table0.Keys && TotalPreorder(oracle.hotter) && !table0[list[0]].connector
      ensures Holds(ts, traces) && Final(Elems(list), Conns(table0), list[0], Flat(ts))
    {
      var compact := CompactTraces();
      assert list[0] in Elems(list);
      assert LaidAs(list[0]);
      assert RootFirst(list[0], Parts(), traces);
      ts := SortTraces(compact);
      HoldsPermuted(compact, ts, traces);
      forall i, j | 0 <= i < j < |ts| && Leads(Conns(table0), ts[i]) ensures Leads(Conns(table0), ts[j]) {
        assert IsConnectorTrace(ts[i]);
      }
      FlatIsFinal(Elems(list), Conns(table0), list[0], Parts(), traces, ts);
    }

    method ReorderTraces()
      requires Cfg() && Laid() && table == table0 && TotalPreorder(oracle.hotter)
      modifies this`table, this`blocks
      ensures Flipped() && Final(Elems(list), Conns(table0), list[0], blocks)
    {
      assert CfgOf(list);
      var ts := OrderTraces();
      HeldAsBefore(ts);
      ListTraces(ts);
    }

    lemma HeldAsBefore(ts: seq<Trace>)
      requires Laid() && Holds(ts, traces) && Elems(list) == table0.Keys
      ensures Separate(ts) && forall j :: 0 <= j < |ts| ==> AsBefore(table0, table0, ts[j].blocks)
    {
      assert LaidAs(list[0]);
      HeldSeparate(Elems(list), Parts(), traces, ts);
      forall j | 0 <= j < |ts| ensures AsBefore(table0, table0, ts[j].blocks) {
        HeldTrace(Elems(list), Conns(table0), list[0], Parts(), traces, ts, j);
      }
    }

    lemma BuiltIsLaid()
      requires Cfg() && Built(|list|) && EdgesFit()
      ensures Laid() && Linked()
    {
      assert CfgOf(list);
      assert Building(list, Conns(table0), |list|, Parts(), traces);
      assert list[..|list|] == list;
      assert LaidAs(list[0]);
    }

    lemma NotedIsPrimed()
      requires Cfg() && Laid() && EdgesFit() && Noted(|traces|)
      ensures Primed()
    {
      assert CfgOf(list) && LaidAs(list[0]) && NotedAt(|traces|);
      forall i | 0 <= i < |edges| ensures AtEnds(traces, edges[i]) {
        assert EdgeOk(table0.Keys, Conns(table0), list[0], edges[i]);
        assert Leaves(table0, rank, info, traces, edges[i], |traces|);
        EdgePrimed(list[0], Parts(), traces, table0, rank, info, edges[i]);
      }
    }

    /** The traces are found, grown along their ends, merged, and put in order. */
    method GatherTraces() returns (ok: bool)
      requires Cfg() && Built(0) && Noted(|traces|) && edges == [] && TotalPreorder(oracle.edgeBefore)
      modifies this`traces, this`edges, uf.indices
      ensures ok ==> Laid() && MergedUpto(|edges|, false)
      ensures Chained(list, table0, rank, info) ==> ok
    {
      ok := FindEdges();
      if ok {
        BuiltIsLaid();
        NotedIsPrimed();
        GrowTraces();
        MergeTraces(true);
        MergeTraces(false);
      }
    }

    /**
     * The whole phase: the new list holds each block exactly once, with the root first and the connectors last,
     * and the blocks are as before up to flipped branches.
     */
    method LayOut() returns (ok: bool)
      requires Cfg() && Built(0) && Noted(|traces|) && edges == [] && table == table0
      requires TotalPreorder(oracle.edgeBefore) && TotalPreorder(oracle.hotter)
      modifies this, uf.indices
      ensures ok ==> Final(table0.Keys, Conns(table0), list[0], blocks) && FlippedFrom(table0, table)
      ensures Chained(list, table0, rank, info) ==> ok
    {
      ok := GatherTraces();
      assert CfgOf(list);
      if ok {
        ReorderTraces();
      }
    }
  }

  /**
   * Layout followed by fixup_flow: the emitted list visits, from any block, the blocks that the graph given to
   * the layout visits.
   */
  lemma LayoutThenFixup(list: seq<BlockId>, t0: Table, rank: Rank, run: seq<Flow>, labels: map<BlockId, nat>,
                        b: BlockId, ds: seq<nat>)
    requires Input(list, t0, rank) && b in t0 && !t0[b].connector
    requires |run| > 0 && Final(t0.Keys, Conns(t0), list[0], run[0].blocks) && FlippedFrom(t0, run[0].table)
    requires IsRun(rank, run) && var f := run[|run| - 1];
      |run| == |f.blocks| + 1 && Labels(f.blocks, labels, |f.blocks|)
    ensures Input(run[0].blocks, run[0].table, rank)
    ensures var t1 := run[0].table; var f := run[|run| - 1];
      && Placed(f.blocks, f.table, rank)
      && b in labels && labels[b] < |f.blocks| && f.blocks[labels[b]] == b && !f.table[b].connector
      && Only(t1, LinRun(t1, f.blocks, f.table, rank, labels, labels[b], ds)) == CfgRun(t0, rank, b, ds)
  {
    ReorderedInput(list, t0, rank, run[0].blocks, run[0].table);
    FlippedGrounded(t0, rank, run[0].table);
    FixupPreservesRuns(rank, run, labels, b, ds);
    FlippedRuns(t0, rank, run[0].table, b, ds);
  }
}
