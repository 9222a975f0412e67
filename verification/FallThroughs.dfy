/**
 * Fall-through edges between blocks and what they mean for traces (opto/block.cpp,
 * PhaseBlockLayout::find_edges and grow_traces): which blocks a trace is first made of,
 * and which edges can join two traces at their ends.
 */
module FallThroughs {
  import opened Lists
  import opened Wrappers
  import opened ControlFlow
  import opened Traces

  /** What the layout asks of a block besides its successors; fall holds the slots it can fall through. */
  datatype Info = Info(numPreds: nat, numFallThroughs: nat, fall: set<nat>)

  datatype EdgeState = Open | Connected | Interior
  datatype CFGEdge = CFGEdge(from: BlockId, to: BlockId, state: EdgeState)

  // ----- Single entries -----

  /** Skip over single-entry connector blocks. */
  function SkipConnectors(t: Table, ghost rank: Rank, info: map<BlockId, Info>, n: BlockId): (r: BlockId)
    requires Grounded(t, rank) && n in t && t.Keys <= info.Keys
    ensures r in t && !(t[r].connector && info[r].numPreds == 1)
    decreases if t[n].connector then rank[n] + 1 else 0
  {
    if t[n].connector && info[n].numPreds == 1 then SkipConnectors(t, rank, info, t[n].succs[0].to) else n
  }

  /** Slot j of p leads to n. */
  ghost predicate Enters(t: Table, p: BlockId, j: nat, n: BlockId) {
    p in t && j < |t[p].succs| && t[p].succs[j].to == n
  }

  ghost predicate OneEntry(t: Table, info: map<BlockId, Info>, n: BlockId, p: BlockId, j: nat, q: BlockId, k: nat) {
    n in info && info[n].numPreds == 1 && Enters(t, p, j, n) && Enters(t, q, k, n) ==> p == q && j == k
  }

  /** A block with one predecessor entry is entered along one edge at most. */
  ghost predicate EntriesCounted(t: Table, info: map<BlockId, Info>) {
    forall n: BlockId, p: BlockId, j: nat, q: BlockId, k: nat :: OneEntry(t, info, n, p, j, q, k)
  }

  lemma SameEntry(t: Table, info: map<BlockId, Info>, n: BlockId, p: BlockId, j: nat, q: BlockId, k: nat)
    requires EntriesCounted(t, info) && n in info && info[n].numPreds == 1 && Enters(t, p, j, n) && Enters(t, q, k, n)
    ensures p == q && j == k
  {
    assert OneEntry(t, info, n, p, j, q, k);
  }

  /** Following first successors of connectors from q comes past y. */
  ghost predicate OnChain(t: Table, rank: Rank, q: BlockId, y: BlockId)
    requires Grounded(t, rank) && q in t
    decreases if t[q].connector then rank[q] + 1 else 0
  {
    q == y || (t[q].connector && OnChain(t, rank, t[q].succs[0].to, y))
  }

  lemma {:induction false} ResolveOnChain(t: Table, rank: Rank, q: BlockId)
    requires Grounded(t, rank) && q in t
    ensures OnChain(t, rank, q, Resolve(t, rank, q))
    decreases if t[q].connector then rank[q] + 1 else 0
  {
    if t[q].connector {
      ResolveOnChain(t, rank, t[q].succs[0].to);
    }
  }

  /** The connector from which the chain reaches y. */
  lemma {:induction false} BeforeOnChain(t: Table, rank: Rank, q: BlockId, y: BlockId) returns (z: BlockId)
    requires Grounded(t, rank) && q in t && OnChain(t, rank, q, y) && q != y
    ensures z in t && t[z].connector && Enters(t, z, 0, y) && OnChain(t, rank, q, z)
    decreases if t[q].connector then rank[q] + 1 else 0
  {
    if t[q].succs[0].to == y {
      z := q;
    } else {
      z := BeforeOnChain(t, rank, t[q].succs[0].to, y);
    }
  }

  /** n comes after y alone: all blocks from y to n have one entry. */
  ghost predicate SingleFrom(t: Table, rank: Rank, info: map<BlockId, Info>, y: BlockId, n: BlockId)
    requires Grounded(t, rank)
  {
    y in t && t.Keys <= info.Keys && SkipConnectors(t, rank, info, y) == n && info[n].numPreds == 1
  }

  lemma {:induction false} ChainIsSingle(t: Table, rank: Rank, info: map<BlockId, Info>, y: BlockId, n: BlockId,
                                         q: BlockId)
    requires Grounded(t, rank) && SingleFrom(t, rank, info, y, n) && OnChain(t, rank, y, q)
    ensures q in info && info[q].numPreds == 1
    decreases if t[y].connector then rank[y] + 1 else 0
  {
    if y != q {
      ChainIsSingle(t, rank, info, t[y].succs[0].to, n, q);
    }
  }

  /** Two chains of connectors to n, one of them with single entries, lie on one another. */
  lemma {:induction false} ChainsMeet(t: Table, rank: Rank, info: map<BlockId, Info>, y: BlockId, n: BlockId,
                                      q: BlockId)
    requires Grounded(t, rank) && EntriesCounted(t, info) && SingleFrom(t, rank, info, y, n)
    requires q in t && Resolve(t, rank, q) == n
    ensures OnChain(t, rank, q, y) || OnChain(t, rank, y, q)
    decreases if t[y].connector then rank[y] + 1 else 0
  {
    if y == n {
      ResolveOnChain(t, rank, q);
    } else {
      var next := t[y].succs[0].to;
      ChainsMeet(t, rank, info, next, n, q);
      if OnChain(t, rank, q, next) && q != next {
        var z := BeforeOnChain(t, rank, q, next);
        SameEntry(t, info, next, y, 0, z, 0);
      }
    }
  }

  /** n is the block that b falls into through single entries. */
  ghost predicate FallsAlone(t: Table, rank: Rank, info: map<BlockId, Info>, b: BlockId, n: BlockId) {
    && Grounded(t, rank) && b in t && !t[b].connector && |t[b].succs| > 0
    && SingleFrom(t, rank, info, t[b].succs[0].to, n)
  }

  /** No other block falls into n. */
  lemma OnlyFrom(t: Table, rank: Rank, info: map<BlockId, Info>, b: BlockId, n: BlockId, p: BlockId, j: nat)
    requires FallsAlone(t, rank, info, b, n) && EntriesCounted(t, info)
    requires p in t && !t[p].connector && j < |t[p].succs| && Resolve(t, rank, t[p].succs[j].to) == n
    ensures p == b && j == 0
  {
    var y, q := t[b].succs[0].to, t[p].succs[j].to;
    ChainsMeet(t, rank, info, y, n, q);
    if q == y {
      SameEntry(t, info, y, b, 0, p, j);
    } else if OnChain(t, rank, q, y) {
      var z := BeforeOnChain(t, rank, q, y);
      SameEntry(t, info, y, b, 0, z, 0);
    } else {
      var z := BeforeOnChain(t, rank, y, q);
      ChainIsSingle(t, rank, info, y, n, q);
      SameEntry(t, info, q, p, j, z, 0);
    }
  }

  // ----- Edges that can join two traces at their ends -----

  ghost predicate EndsWith(traces: TraceTable, a: nat, x: BlockId) {
    a < |traces| && traces[a].Some? && |traces[a].value.blocks| > 0 &&
      traces[a].value.blocks[|traces[a].value.blocks| - 1] == x
  }

  ghost predicate StartsWith(traces: TraceTable, a: nat, x: BlockId) {
    a < |traces| && traces[a].Some? && |traces[a].value.blocks| > 0 && traces[a].value.blocks[0] == x
  }

  ghost predicate JoinableBy(traces: TraceTable, e: CFGEdge, a: nat, b: nat) {
    a != b && EndsWith(traces, a, e.from) && StartsWith(traces, b, e.to)
  }

  /** The edge leads from the end of one trace to the start of another. */
  ghost predicate Joinable(traces: TraceTable, e: CFGEdge) {
    exists a: nat, b: nat :: JoinableBy(traces, e, a, b)
  }

  ghost predicate IsAppend(traces: TraceTable, traces': TraceTable, a: nat, b: nat) {
    && a < |traces| && b < |traces| && a != b && traces[a].Some? && traces[b].Some?
    && |traces[a].value.blocks| > 0 && |traces[b].value.blocks| > 0
    && traces' == Joined(traces, a, b, |traces[a].value.blocks|)
  }

  /** Appending one trace to another makes no edge joinable. */
  lemma AppendJoinsNoMore(traces: TraceTable, traces': TraceTable, a: nat, b: nat, e: CFGEdge)
    requires IsAppend(traces, traces', a, b) && Joinable(traces', e)
    ensures Joinable(traces, e)
  {
    var x: nat, y: nat :| JoinableBy(traces', e, x, y);
    assert JoinableBy(traces, e, if x == Lo(a, b) then b else x, if y == Lo(a, b) then a else y);
  }

  ghost predicate IsInsertion(traces: TraceTable, traces': TraceTable, a: nat, b: nat, p: nat) {
    && a < |traces| && b < |traces| && a != b && traces[a].Some? && traces[b].Some?
    && 0 < p < |traces[a].value.blocks| && traces' == Joined(traces, a, b, p)
  }

  /** Nor does putting one trace inside another. */
  lemma InsertionJoinsNoMore(traces: TraceTable, traces': TraceTable, a: nat, b: nat, p: nat, e: CFGEdge)
    requires IsInsertion(traces, traces', a, b, p) && Joinable(traces', e)
    ensures Joinable(traces, e)
  {
    var x: nat, y: nat :| JoinableBy(traces', e, x, y);
    assert JoinableBy(traces, e, if x == Lo(a, b) then a else x, if y == Lo(a, b) then a else y);
  }

  /** What starts a trace, or ends one other than the root's, did so before. */
  lemma InsertionEnds(traces: TraceTable, traces': TraceTable, a: nat, b: nat, p: nat, root: nat, y: nat, x: BlockId)
    requires IsInsertion(traces, traces', a, b, p) && root <= a && root <= b
    ensures StartsWith(traces', y, x) ==> exists z: nat :: StartsWith(traces, z, x)
    ensures EndsWith(traces', y, x) && y != root ==> exists z: nat :: z != root && EndsWith(traces, z, x)
  {
    var z := if y == Lo(a, b) then a else y;
    assert StartsWith(traces', y, x) ==> StartsWith(traces, z, x);
    assert EndsWith(traces', y, x) ==> EndsWith(traces, z, x);
  }

  lemma AppendEnds(traces: TraceTable, traces': TraceTable, a: nat, b: nat, root: nat, y: nat, x: BlockId)
    requires IsAppend(traces, traces', a, b) && root <= a && root <= b
    ensures StartsWith(traces', y, x) ==> exists z: nat :: StartsWith(traces, z, x)
    ensures EndsWith(traces', y, x) && y != root ==> exists z: nat :: z != root && EndsWith(traces, z, x)
  {
    assert StartsWith(traces', y, x) ==> StartsWith(traces, if y == Lo(a, b) then a else y, x);
    assert EndsWith(traces', y, x) ==> EndsWith(traces, if y == Lo(a, b) then b else y, x);
  }

  /** An edge between traces k and l that does not join their ends joins no others. */
  lemma NotJoinable(ids: set<BlockId>, reps: seq<nat>, traces: TraceTable, e: CFGEdge, k: nat, l: nat)
    requires Agrees(ids, reps, traces) && e.from in ids && e.to in ids
    requires k < |traces| && traces[k].Some? && e.from in traces[k].value.blocks
    requires l < |traces| && traces[l].Some? && e.to in traces[l].value.blocks
    requires !JoinableBy(traces, e, k, l)
    ensures !Joinable(traces, e)
  {
    UniqueTrace(ids, reps, traces, e.from, k);
    UniqueTrace(ids, reps, traces, e.to, l);
    forall x: nat, y: nat ensures !JoinableBy(traces, e, x, y) {
      if EndsWith(traces, x, e.from) {
        UniqueTrace(ids, reps, traces, e.from, x);
      }
      if StartsWith(traces, y, e.to) {
        UniqueTrace(ids, reps, traces, e.to, y);
      }
    }
  }

  // ----- What find_edges leaves behind -----

  /** Each block but the first is the one that its predecessor falls into alone. */
  ghost predicate IsChain(t: Table, rank: Rank, info: map<BlockId, Info>, s: seq<BlockId>) {
    forall q :: 0 < q < |s| ==> FallsAlone(t, rank, info, s[q - 1], s[q])
  }

  /** The trace at k, if there is one, is a chain or the trace of the connectors. */
  ghost predicate ChainTrace(t: Table, rank: Rank, info: map<BlockId, Info>, traces: TraceTable, k: nat) {
    k < |traces| && traces[k].Some? ==>
      var s := traces[k].value.blocks;
      (|s| > 0 && s[0] in t && t[s[0]].connector) || IsChain(t, rank, info, s)
  }

  ghost predicate Chains(t: Table, rank: Rank, info: map<BlockId, Info>, traces: TraceTable) {
    forall k: nat :: ChainTrace(t, rank, info, traces, k)
  }

  /** e follows a fall-through slot of its source, skipping connectors. */
  ghost predicate LeadsTo(t: Table, rank: Rank, info: map<BlockId, Info>, e: CFGEdge) {
    && Grounded(t, rank) && e.from in t && !t[e.from].connector && e.from in info
    && exists j ::
         0 <= j < |t[e.from].succs| && j in info[e.from].fall && e.to == Resolve(t, rank, t[e.from].succs[j].to)
  }

  /** The edges for the slots of b below j that it can fall through. */
  function FallEdges(t: Table, ghost rank: Rank, info: map<BlockId, Info>, b: BlockId, j: nat): seq<CFGEdge>
    requires Grounded(t, rank) && b in t && b in info && j <= |t[b].succs|
  {
    if j == 0 then [] else
      var fall := if j - 1 in info[b].fall then [CFGEdge(b, Resolve(t, rank, t[b].succs[j - 1].to), Open)] else [];
      FallEdges(t, rank, info, b, j - 1) + fall
  }

  /** They are the open edges from b that a fall-through takes. */
  lemma {:induction false} FallEdgesLead(t: Table, rank: Rank, info: map<BlockId, Info>, b: BlockId, j: nat, e: CFGEdge)
    requires Grounded(t, rank) && b in t && b in info && j <= |t[b].succs|
    ensures e in FallEdges(t, rank, info, b, j) <==>
      e.from == b && e.state == Open &&
      exists k :: 0 <= k < j && k in info[b].fall && e.to == Resolve(t, rank, t[b].succs[k].to)
  {
    if j > 0 {
      FallEdgesLead(t, rank, info, b, j - 1, e);
    }
  }

  /** e is a fall-through edge that leaves the end of a trace other than k. */
  ghost predicate Leaves(t: Table, rank: Rank, info: map<BlockId, Info>, traces: TraceTable, e: CFGEdge, k: nat) {
    LeadsTo(t, rank, info, e) && exists a: nat :: a != k && EndsWith(traces, a, e.from)
  }

  /** Traces are chains, and the edges recorded leave the ends of traces other than k. */
  ghost predicate Recorded(t: Table, rank: Rank, info: map<BlockId, Info>, traces: TraceTable, edges: seq<CFGEdge>,
                           k: nat)
  {
    Chains(t, rank, info, traces) && forall i :: 0 <= i < |edges| ==> Leaves(t, rank, info, traces, edges[i], k)
  }

  lemma RecordedStart(t: Table, rank: Rank, info: map<BlockId, Info>, traces: TraceTable, edges: seq<CFGEdge>, n: nat)
    requires Recorded(t, rank, info, traces, edges, |traces|) && n < |traces| && traces[n].None?
    ensures Recorded(t, rank, info, traces[n := Some(Trace(n, [n]))], edges, n)
  {
    var traces' := traces[n := Some(Trace(n, [n]))];
    forall k: nat ensures ChainTrace(t, rank, info, traces', k) {
      assert ChainTrace(t, rank, info, traces, k);
    }
    forall i | 0 <= i < |edges| ensures Leaves(t, rank, info, traces', edges[i], n) {
      var a: nat :| a != |traces| && EndsWith(traces, a, edges[i].from);
      assert EndsWith(traces', a, edges[i].from);
    }
  }

  lemma ChainAppend(t: Table, rank: Rank, info: map<BlockId, Info>, s: seq<BlockId>, n: BlockId)
    requires IsChain(t, rank, info, s) && |s| > 0 && FallsAlone(t, rank, info, s[|s| - 1], n)
    ensures IsChain(t, rank, info, s + [n])
  {
    var more := s + [n];
    forall q | 0 < q < |more| ensures FallsAlone(t, rank, info, more[q - 1], more[q]) {
      assert q < |s| ==> FallsAlone(t, rank, info, s[q - 1], s[q]);
    }
  }

  lemma RecordedAppend(t: Table, rank: Rank, info: map<BlockId, Info>, traces: TraceTable, edges: seq<CFGEdge>, k: nat,
                       n: BlockId)
    requires Recorded(t, rank, info, traces, edges, k) && k < |traces| && traces[k].Some?
    requires |traces[k].value.blocks| > 0
    requires var s := traces[k].value.blocks;
      s[0] in t && (t[s[0]].connector || FallsAlone(t, rank, info, s[|s| - 1], n))
    ensures Recorded(t, rank, info, traces[k := Some(Trace(k, traces[k].value.blocks + [n]))], edges, k)
  {
    var s := traces[k].value.blocks;
    var traces' := traces[k := Some(Trace(k, s + [n]))];
    forall l: nat ensures ChainTrace(t, rank, info, traces', l) {
      assert ChainTrace(t, rank, info, traces, l);
      if l == k && !t[s[0]].connector {
        ChainAppend(t, rank, info, s, n);
      }
    }
    forall i | 0 <= i < |edges| ensures Leaves(t, rank, info, traces', edges[i], k) {
      var a: nat :| a != k && EndsWith(traces, a, edges[i].from);
      assert EndsWith(traces', a, edges[i].from);
    }
  }

  lemma RecordedAll(t: Table, rank: Rank, info: map<BlockId, Info>, traces: TraceTable, edges: seq<CFGEdge>, k: nat)
    requires Recorded(t, rank, info, traces, edges, k)
    ensures Recorded(t, rank, info, traces, edges, |traces|)
  {
    forall i | 0 <= i < |edges| ensures Leaves(t, rank, info, traces, edges[i], |traces|) {
      assert Leaves(t, rank, info, traces, edges[i], k);
      var a: nat :| a != k && EndsWith(traces, a, edges[i].from);
    }
  }

  /** The edge leads from the end of a trace to the start of one. */
  ghost predicate AtEnds(traces: TraceTable, e: CFGEdge) {
    exists a: nat, b: nat :: EndsWith(traces, a, e.from) && StartsWith(traces, b, e.to)
  }

  /** Edges enter traces at their start: only its predecessor in the chain falls into any other block. */
  lemma TargetStarts(ids: set<BlockId>, reps: seq<nat>, t: Table, rank: Rank, info: map<BlockId, Info>,
                     traces: TraceTable, e: CFGEdge, a: nat)
    requires Agrees(ids, reps, traces) && e.to in ids && EntriesCounted(t, info) && Chains(t, rank, info, traces)
    requires LeadsTo(t, rank, info, e) && EndsWith(traces, a, e.from)
    requires forall k: nat :: k < |traces| && traces[k].Some? && e.to in traces[k].value.blocks ==>
      traces[k].value.blocks[0] in t && !t[traces[k].value.blocks[0]].connector
    ensures AtEnds(traces, e)
  {
    assert AtHome(reps, traces, e.to);
    var l := reps[e.to];
    var s := traces[l].value.blocks;
    assert ChainTrace(t, rank, info, traces, l);
    var q :| 0 <= q < |s| && s[q] == e.to;
    if q > 0 {
      var j :| 0 <= j < |t[e.from].succs| && j in info[e.from].fall && e.to == Resolve(t, rank, t[e.from].succs[j].to);
      assert FallsAlone(t, rank, info, s[q - 1], s[q]);
      EndIsLast(ids, reps, traces, a, e.from, l, q);
      OnlyFrom(t, rank, info, s[q - 1], e.to, e.from, j);
    } else {
      assert StartsWith(traces, l, e.to);
    }
  }

  /** A block that ends a trace is not followed by another one in any trace. */
  lemma EndIsLast(ids: set<BlockId>, reps: seq<nat>, traces: TraceTable, a: nat, x: BlockId, l: nat, q: nat)
    requires Agrees(ids, reps, traces) && EndsWith(traces, a, x)
    requires l < |traces| && traces[l].Some? && 0 < q < |traces[l].value.blocks|
    ensures x != traces[l].value.blocks[q - 1]
  {
    assert TraceOk(ids, reps, l, traces[l].value) && TraceOk(ids, reps, a, traces[a].value);
    if x == traces[l].value.blocks[q - 1] {
      UniqueTrace(ids, reps, traces, x, a);
      UniqueTrace(ids, reps, traces, x, l);
    }
  }
}
