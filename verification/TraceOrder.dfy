/**
 * The block list that the traces make up, and the branch senses that go with it
 * (opto/block.cpp, PhaseBlockLayout::reorder_traces and Trace::fixup_blocks).
 */
module TraceOrder {
  import opened Lists
  import opened Wrappers
  import opened ControlFlow
  import opened FixupFlow
  import opened Traces
  import opened Sorting

  // ----- From traces to a block list -----

  /** ts lists the traces of the table, each once. */
  ghost predicate Holds(ts: seq<Trace>, traces: TraceTable) {
    && (forall i :: 0 <= i < |ts| ==> ts[i].id < |traces| && traces[ts[i].id] == Some(ts[i]))
    && NoDup(ts)
    && forall k :: 0 <= k < |traces| && traces[k].Some? ==> traces[k].value in ts
  }

  function Flat(ts: seq<Trace>): seq<BlockId> {
    if ts == [] then [] else ts[0].blocks + Flat(ts[1..])
  }

  ghost predicate InSome(ts: seq<Trace>, x: BlockId) {
    exists i :: 0 <= i < |ts| && x in ts[i].blocks
  }

  lemma {:induction false} FlatMembers(ts: seq<Trace>, x: BlockId)
    ensures x in Flat(ts) <==> InSome(ts, x)
  {
    if ts != [] {
      FlatMembers(ts[1..], x);
      assert forall i :: 0 <= i < |ts[1..]| ==> ts[1..][i] == ts[i + 1];
      if InSome(ts, x) && x !in ts[0].blocks {
        var i :| 0 <= i < |ts| && x in ts[i].blocks;
        assert x in ts[1..][i - 1].blocks;
      }
    }
  }

  ghost predicate Separate(ts: seq<Trace>) {
    && (forall i :: 0 <= i < |ts| ==> NoDup(ts[i].blocks))
    && (forall i, j, x :: 0 <= i < j < |ts| && x in ts[i].blocks ==> x !in ts[j].blocks)
  }

  lemma {:induction false} FlatNoDup(ts: seq<Trace>)
    requires Separate(ts)
    ensures NoDup(Flat(ts))
  {
    if ts != [] {
      var rest := ts[1..];
      FlatNoDup(rest);
      forall x | x in ts[0].blocks ensures x !in Flat(rest) {
        FlatMembers(rest, x);
      }
      EmbedHolds(ts[0].blocks, |ts[0].blocks|, Flat(rest));
      assert Embed(ts[0].blocks, |ts[0].blocks|, Flat(rest)) == Flat(ts);
    }
  }

  lemma HeldSeparate(ids: set<BlockId>, reps: seq<nat>, traces: TraceTable, ts: seq<Trace>)
    requires Agrees(ids, reps, traces) && Holds(ts, traces)
    ensures Separate(ts)
  {
    forall i | 0 <= i < |ts| ensures TraceOk(ids, reps, ts[i].id, ts[i]) {
    }
    forall i, j, x | 0 <= i < j < |ts| && x in ts[i].blocks ensures x !in ts[j].blocks {
      assert TraceOk(ids, reps, ts[i].id, ts[i]) && TraceOk(ids, reps, ts[j].id, ts[j]);
    }
  }

  /** Every block is in the list exactly once. */
  lemma FlatIsPermutation(ids: set<BlockId>, reps: seq<nat>, traces: TraceTable, ts: seq<Trace>)
    requires Agrees(ids, reps, traces) && Holds(ts, traces)
    ensures NoDup(Flat(ts)) && Elems(Flat(ts)) == ids
  {
    HeldSeparate(ids, reps, traces, ts);
    FlatNoDup(ts);
    forall x: BlockId ensures x in Flat(ts) <==> x in ids {
      FlatMembers(ts, x);
      if InSome(ts, x) {
        var i :| 0 <= i < |ts| && x in ts[i].blocks;
        assert TraceOk(ids, reps, ts[i].id, ts[i]);
      }
      if x in ids {
        assert AtHome(reps, traces, x);
        var i :| 0 <= i < |ts| && ts[i] == traces[reps[x]].value;
        assert x in ts[i].blocks;
      }
    }
  }

  ghost predicate Suffix(conns: set<BlockId>, s: seq<BlockId>) {
    forall p, q :: 0 <= p < q < |s| && s[p] in conns ==> s[q] in conns
  }

  /** The blocks of t are connectors, or none of them is. */
  ghost predicate Pure(conns: set<BlockId>, t: Trace) {
    |t.blocks| > 0 && forall x :: x in t.blocks ==> (x in conns <==> t.blocks[0] in conns)
  }

  ghost predicate Leads(conns: set<BlockId>, t: Trace) {
    |t.blocks| > 0 && t.blocks[0] in conns
  }

  lemma JoinedSuffix(conns: set<BlockId>, a: seq<BlockId>, b: seq<BlockId>)
    requires |a| > 0 && (forall x :: x in a ==> (x in conns <==> a[0] in conns)) && Suffix(conns, b)
    requires a[0] in conns ==> forall x :: x in b ==> x in conns
    ensures Suffix(conns, a + b)
  {
    var s := a + b;
    forall p, q | 0 <= p < q < |s| && s[p] in conns ensures s[q] in conns {
      if q < |a| {
        assert a[p] in a && a[q] in a;
      } else {
        assert s[q] == b[q - |a|] && b[q - |a|] in b;
        if p < |a| {
          assert a[p] in a;
        } else {
          assert s[p] == b[p - |a|];
        }
      }
    }
  }

  /** If no other trace follows a trace of connectors, the connectors are at the end of the list. */
  lemma {:induction false} FlatSuffix(conns: set<BlockId>, ts: seq<Trace>)
    requires forall i :: 0 <= i < |ts| ==> Pure(conns, ts[i])
    requires forall i, j :: 0 <= i < j < |ts| && Leads(conns, ts[i]) ==> Leads(conns, ts[j])
    ensures Suffix(conns, Flat(ts))
  {
    if ts != [] {
      var rest := ts[1..];
      FlatSuffix(conns, rest);
      assert Pure(conns, ts[0]);
      if ts[0].blocks[0] in conns {
        forall x | x in Flat(rest) ensures x in conns {
          FlatMembers(rest, x);
          var i :| 0 <= i < |rest| && x in rest[i].blocks;
          assert rest[i] == ts[i + 1] && Pure(conns, ts[i + 1]) && Leads(conns, ts[0]);
        }
      }
      JoinedSuffix(conns, ts[0].blocks, Flat(rest));
    }
  }

  // ----- Branch senses -----

  /** Targets and projections of a two-way block exchanged. */
  function Flip(b: Block): Block
    requires |b.succs| == 2 && |b.projs| == 2
  {
    b.(succs := [b.succs[1], b.succs[0]], projs := [b.projs[1], b.projs[0]])
  }

  ghost predicate MaybeFlipped(b0: Block, b: Block) {
    b == b0 || (!b0.connector && b0.ender.If? && TwoWay(b0.succs) && MatchedProjs(b0) && b == Flip(b0))
  }

  ghost predicate FlippedFrom(t0: Table, t: Table) {
    t.Keys == t0.Keys && forall b :: b in t0 ==> MaybeFlipped(t0[b], t[b])
  }

  lemma FlippedGrounded(t0: Table, rank: Rank, t: Table)
    requires Grounded(t0, rank) && FlippedFrom(t0, t)
    ensures Grounded(t, rank) && KeepsConnectors(t0, t)
  {
    forall b | b in t
      ensures (forall j :: 0 <= j < |t[b].succs| ==> t[b].succs[j].to in t)
      ensures t[b].connector == t0[b].connector && (t0[b].connector ==> t[b].succs == t0[b].succs)
    {
      assert MaybeFlipped(t0[b], t[b]);
    }
  }

  lemma FlipSlot(succs: seq<Edge>, d: nat)
    requires TwoWay(succs)
    ensures var j, k := Slot(succs, d), Slot([succs[1], succs[0]], d);
      if j < 2 then k < 2 && [succs[1], succs[0]][k] == succs[j] else k == 2
  {
    var j, k := Slot(succs, d), Slot([succs[1], succs[0]], d);
    assert [succs[1], succs[0]][0] == succs[1] && [succs[1], succs[0]][1] == succs[0];
  }

  /** Leaving a flipped block through a projection leads to the same successor. */
  lemma FlippedNext(t0: Table, rank: Rank, t: Table, b: BlockId, d: nat)
    requires Grounded(t0, rank) && FlippedFrom(t0, t) && b in t0
    ensures Grounded(t, rank) && CfgNext(t, rank, b, d) == CfgNext(t0, rank, b, d)
  {
    FlippedGrounded(t0, rank, t);
    assert MaybeFlipped(t0[b], t[b]);
    var x, y := t0[b], t[b];
    if y != x {
      FlipSlot(x.succs, d);
      assert HasCon(x, d) <==> Slot(x.succs, d) < 2;
      assert HasCon(y, d) <==> Slot(y.succs, d) < 2;
    }
    if !x.ender.Exit? && HasCon(x, d) {
      ResolveKept(t0, t, rank, x.succs[Slot(x.succs, d)].to);
    }
  }

  /** Flipping changes no run of the graph. */
  lemma {:induction false} FlippedRuns(t0: Table, rank: Rank, t: Table, b: BlockId, ds: seq<nat>)
    requires Grounded(t0, rank) && FlippedFrom(t0, t) && b in t0
    ensures Grounded(t, rank) && CfgRun(t, rank, b, ds) == CfgRun(t0, rank, b, ds)
    decreases |ds|
  {
    FlippedGrounded(t0, rank, t);
    if ds != [] {
      FlippedNext(t0, rank, t, b, ds[0]);
      match CfgNext(t0, rank, b, ds[0])
      case None =>
      case Some(n) => FlippedRuns(t0, rank, t, n, ds[1..]);
    }
  }

  lemma FlipShape(b: Block)
    requires b.ender.If? && TwoWay(b.succs) && MatchedProjs(b)
    ensures Shape(Flip(b)) && MatchedProjs(Flip(b))
  {
    assert Flip(b).succs == [b.succs[1], b.succs[0]];
  }

  lemma FlippedInput(t0: Table, rank: Rank, t: Table, root: BlockId, b: BlockId)
    requires Grounded(t0, rank) && FlippedFrom(t0, t) && b in t0 && InputBlock(t0, rank, root, b)
    ensures Grounded(t, rank) && InputBlock(t, rank, root, b)
  {
    FlippedGrounded(t0, rank, t);
    assert MaybeFlipped(t0[b], t[b]);
    if t[b] != t0[b] {
      FlipShape(t0[b]);
    } else if t0[b].ender.Exit? {
      ResolveKept(t0, t, rank, t0[b].succs[0].to);
    }
  }

  /** A new order of the blocks, flipped or not, is again what fixup_flow can be handed. */
  lemma ReorderedInput(list: seq<BlockId>, t0: Table, rank: Rank, blocks: seq<BlockId>, t: Table)
    requires Input(list, t0, rank) && FlippedFrom(t0, t)
    requires NoDup(blocks) && Elems(blocks) == Elems(list) && 1 <= |blocks| && blocks[0] == list[0]
    ensures Input(blocks, t, rank)
  {
    FlippedGrounded(t0, rank, t);
    forall b | b in t && !t[b].connector ensures InputBlock(t, rank, blocks[0], b) {
      FlippedInput(t0, rank, t, list[0], b);
    }
  }

  /** A two-way block does not fall into its first successor if it can fall into its second. */
  ghost predicate Sensed(t: Table, rank: Rank, b: BlockId, next: BlockId)
    requires Grounded(t, rank)
  {
    b in t && |t[b].succs| == 2 && next == Resolve(t, rank, t[b].succs[0].to) ==>
      next == Resolve(t, rank, t[b].succs[1].to)
  }

  lemma {:induction false} FlatAppend(ts: seq<Trace>, t: Trace)
    ensures Flat(ts + [t]) == Flat(ts) + t.blocks
  {
    if ts == [] {
      assert [t][1..] == [];
      assert ts + [t] == [t];
    } else {
      FlatAppend(ts[1..], t);
      assert (ts + [t])[1..] == ts[1..] + [t];
    }
  }

  /** The blocks of s are as they are in t0. */
  ghost predicate AsBefore(t0: Table, t: Table, s: seq<BlockId>) {
    forall i :: 0 <= i < |s| ==> s[i] in t0 && s[i] in t && t[s[i]] == t0[s[i]]
  }

  /** Only blocks of s differ between t and t'. */
  ghost predicate ChangedIn(t: Table, t': Table, s: seq<BlockId>) {
    t'.Keys == t.Keys && forall b :: b in t && b !in s ==> t'[b] == t[b]
  }

  /** Flipping a block that is as before keeps the rest. */
  lemma FlipOne(t0: Table, rank: Rank, t: Table, b: BlockId)
    requires Grounded(t0, rank) && FlippedFrom(t0, t) && b in t0 && b in t && t[b] == t0[b]
    requires !t0[b].connector && t0[b].ender.If? && TwoWay(t0[b].succs) && MatchedProjs(t0[b])
    ensures FlippedFrom(t0, t[b := Flip(t[b])]) && Grounded(t[b := Flip(t[b])], rank) && Grounded(t, rank)
    ensures KeepsConnectors(t, t[b := Flip(t[b])])
  {
    FlipOneFrom(t0, t, b);
    FlippedGrounded(t0, rank, t[b := Flip(t[b])]);
    FlippedGrounded(t0, rank, t);
  }

  lemma FlipOneFrom(t0: Table, t: Table, b: BlockId)
    requires FlippedFrom(t0, t) && b in t0 && b in t && t[b] == t0[b]
    requires !t0[b].connector && t0[b].ender.If? && TwoWay(t0[b].succs) && MatchedProjs(t0[b])
    ensures FlippedFrom(t0, t[b := Flip(t[b])])
  {
    var t' := t[b := Flip(t[b])];
    forall x | x in t0 ensures MaybeFlipped(t0[x], t'[x]) {
      assert MaybeFlipped(t0[x], t[x]);
    }
  }

  lemma SensedKept(t0: Table, rank: Rank, t: Table, t': Table, b: BlockId, next: BlockId)
    requires Grounded(t0, rank) && FlippedFrom(t0, t) && FlippedFrom(t0, t') && b in t0 && t[b] == t'[b]
    requires Grounded(t, rank) && Sensed(t, rank, b, next)
    ensures Grounded(t', rank) && Sensed(t', rank, b, next)
  {
    FlippedGrounded(t0, rank, t);
    FlippedGrounded(t0, rank, t');
    if |t[b].succs| == 2 {
      ResolveKept(t0, t, rank, t[b].succs[0].to);
      ResolveKept(t0, t', rank, t[b].succs[0].to);
      ResolveKept(t0, t, rank, t[b].succs[1].to);
      ResolveKept(t0, t', rank, t[b].succs[1].to);
    }
  }

  /** Position i of s is not a two-way block, the end of s, or has the right branch sense. */
  ghost predicate SensedAt(rank: Rank, two: set<BlockId>, t: Table, s: seq<BlockId>, i: nat) {
    i + 1 < |s| && s[i] in two ==> Grounded(t, rank) && Sensed(t, rank, s[i], s[i + 1])
  }

  lemma SensedStill(t0: Table, rank: Rank, two: set<BlockId>, t: Table, t': Table, s: seq<BlockId>, i: nat, j: nat)
    requires Grounded(t0, rank) && FlippedFrom(t0, t) && FlippedFrom(t0, t') && j < i < |s| && NoDup(s)
    requires ChangedIn(t, t', [s[i]]) && SensedAt(rank, two, t, s, j)
    ensures SensedAt(rank, two, t', s, j)
  {
    if s[j] in two {
      FlippedGrounded(t0, rank, t');
      if s[j] in t0 {
        SensedKept(t0, rank, t, t', s[j], s[j + 1]);
      }
    }
  }

  ghost predicate SensedUpto(rank: Rank, two: set<BlockId>, t: Table, s: seq<BlockId>, i: nat) {
    forall j: nat :: j < i ==> SensedAt(rank, two, t, s, j)
  }

  /** Only block i of s may be flipped differently in t and t'. */
  ghost predicate FlipPlace(t0: Table, rank: Rank, t: Table, t': Table, s: seq<BlockId>, i: nat) {
    && Grounded(t0, rank) && FlippedFrom(t0, t) && FlippedFrom(t0, t')
    && NoDup(s) && i < |s| && ChangedIn(t, t', [s[i]])
  }

  lemma SensedBelow(t0: Table, rank: Rank, two: set<BlockId>, t: Table, t': Table, s: seq<BlockId>, i: nat, j: nat)
    requires (forall k :: k == i ==> FlipPlace(t0, rank, t, t', s, k)) && j < i && SensedUpto(rank, two, t, s, i)
    ensures SensedAt(rank, two, t', s, j)
  {
    assert FlipPlace(t0, rank, t, t', s, i);
    assert SensedAt(rank, two, t, s, j);
    SensedStill(t0, rank, two, t, t', s, i, j);
  }

  lemma SensedNext(t0: Table, rank: Rank, two: set<BlockId>, t: Table, t': Table, s: seq<BlockId>, i: nat)
    requires forall k :: k == i ==> FlipPlace(t0, rank, t, t', s, k)
    requires SensedUpto(rank, two, t, s, i) && SensedAt(rank, two, t', s, i)
    ensures SensedUpto(rank, two, t', s, i + 1)
  {
    forall j: nat | j < i ensures SensedAt(rank, two, t', s, j) {
      SensedBelow(t0, rank, two, t, t', s, i, j);
    }
  }

  lemma NextAsBefore(t0: Table, t: Table, t': Table, s: seq<BlockId>, i: nat)
    requires AsBefore(t0, t, s) && NoDup(s) && i < |s| && ChangedIn(t, t', s[..i])
    ensures s[i] in t0 && s[i] in t' && t'[s[i]] == t0[s[i]]
  {
    assert s[i] !in s[..i];
  }

  lemma ChangedNext(t: Table, t': Table, t'': Table, s: seq<BlockId>, i: nat)
    requires i < |s| && ChangedIn(t, t', s[..i]) && ChangedIn(t', t'', [s[i]])
    ensures ChangedIn(t, t'', s[..i + 1]) && s[..i + 1] == s[..i] + [s[i]]
  {
    assert s[..i + 1] == s[..i] + [s[i]];
  }

  lemma OthersAsBefore(t0: Table, t: Table, t': Table, ts: seq<Trace>, i: nat, j: nat)
    requires Separate(ts) && i < j < |ts| && ChangedIn(t, t', ts[i].blocks) && AsBefore(t0, t, ts[j].blocks)
    ensures AsBefore(t0, t', ts[j].blocks)
  {
    forall k | 0 <= k < |ts[j].blocks| ensures var b := ts[j].blocks[k]; b in t0 && b in t' && t'[b] == t0[b] {
      assert ts[j].blocks[k] in ts[j].blocks;
    }
  }

  lemma HoldsPermuted(ts: seq<Trace>, ts': seq<Trace>, traces: TraceTable)
    requires Holds(ts, traces) && NoDup(ts') && forall t :: t in ts' <==> t in ts
    ensures Holds(ts', traces)
  {
    forall i | 0 <= i < |ts'| ensures ts'[i].id < |traces| && traces[ts'[i].id] == Some(ts'[i]) {
      assert ts'[i] in ts' && ts'[i] in ts;
    }
  }
}
