/**
 * From the control-flow graph to the emitted block list (opto/compile.cpp, the end of
 * Code_Gen): empty blocks are removed, blocks are laid out by frequency, and the flow
 * between them is fixed up.
 */
module Emission {
  import opened Lists
  import opened ControlFlow
  import opened FixupFlow
  import opened EmptyBlocks
  import BlockLayout
  import FallThroughs
  import TraceOrder
  import Sorting

  /** Without its empty blocks, a graph that fixup_flow could be handed still is one. */
  lemma CleanedInput(list: seq<BlockId>, t: Table, rank: Rank, blocks: seq<BlockId>)
    requires Before(t, rank) && Input(list, t, rank) && !t[list[0]].empty
    requires NoDup(blocks) && Elems(blocks) == t.Keys && 1 <= |blocks| && blocks[0] == list[0]
    ensures Input(blocks, Connected(t, Empties(t)), rank)
  {
    var t' := Connected(t, Empties(t));
    forall b | b in t' && !t'[b].connector ensures InputBlock(t', rank, blocks[0], b) {
      assert InputBlock(t, rank, list[0], b);
    }
  }

  /**
   * The emitted list f, started at block b of the graph t, visits the blocks of t that are not empty in the order
   * in which t does, with only inserted gotos in between.
   */
  ghost predicate EmitsRun(t: Table, rank: Rank, t1: Table, f: Flow, labels: map<BlockId, nat>, b: BlockId,
                           ds: seq<nat>)
    requires Before(t, rank) && b in t
  {
    && Placed(f.blocks, f.table, rank)
    && b in labels && labels[b] < |f.blocks| && f.blocks[labels[b]] == b && !f.table[b].connector
    && Alike(t, CfgRun(t, rank, b, ds),
             Only(t1, LinRun(t1, f.blocks, f.table, rank, labels, labels[b], Kept(t, rank, b, ds))))
  }

  /** Removal of empty blocks, layout and fixup_flow together keep every run of the graph. */
  lemma EmissionKeepsRuns(list: seq<BlockId>, t: Table, rank: Rank, cleaned: seq<BlockId>, run: seq<Flow>,
                          labels: map<BlockId, nat>, b: BlockId, ds: seq<nat>)
    requires Before(t, rank) && Input(list, t, rank) && !t[list[0]].empty && b in t && !t[b].empty
    requires NoDup(cleaned) && Elems(cleaned) == t.Keys && 1 <= |cleaned| && cleaned[0] == list[0]
    requires |run| > 0 && var t' := Connected(t, Empties(t));
      && BlockLayout.Final(t'.Keys, BlockLayout.Conns(t'), cleaned[0], run[0].blocks)
      && TraceOrder.FlippedFrom(t', run[0].table)
    requires IsRun(rank, run) && var f := run[|run| - 1];
      |run| == |f.blocks| + 1 && Labels(f.blocks, labels, |f.blocks|)
    ensures EmitsRun(t, rank, run[0].table, run[|run| - 1], labels, b, ds)
  {
    var t', kept := Connected(t, Empties(t)), Kept(t, rank, b, ds);
    CleanedInput(list, t, rank, cleaned);
    BlockLayout.LayoutThenFixup(cleaned, t', rank, run, labels, b, kept);
    EmptyBlocksDontMatter(t, rank, b, ds);
    assert Resolve(t', rank, b) == b;
  }

  /** What the phases are told besides the graph: block data, flags and oracles. */
  datatype Settings = Settings(
    freqBased: bool,
    info: map<BlockId, FallThroughs.Info>,
    uncommon: set<BlockId>,
    rotateLoops: bool,
    oracle: BlockLayout.Oracle,
    prefersSecond: set<BlockId>,
    neverTrue: set<BlockId>)

  /** The list holds all blocks, numbered in its order, none of them a connector and the first not empty. */
  ghost predicate ListOk(list: seq<BlockId>, t: Table) {
    && NoDup(list) && Elems(list) == t.Keys && 1 <= |list| && !t[list[0]].empty
    && (forall b :: b in t ==> !t[b].connector)
    && (forall i, j :: 0 <= i < j < |list| ==> list[i] < list[j])
    && (forall i :: 0 <= i < |list| ==> list[i] <= |list|)
  }

  /** The graph is in order. */
  ghost predicate GraphOk(list: seq<BlockId>, t: Table, rank: Rank) {
    ListOk(list, t) && Before(t, rank) && Input(list, t, rank)
  }

  /** What the layout relies on, for the graph whose empty blocks are connectors. */
  ghost predicate SettingsOk(list: seq<BlockId>, t: Table, rank: Rank, s: Settings) {
    s.freqBased ==> var t' := Connected(t, Empties(t));
    && |list| > 0 && Grounded(t', rank) && BlockLayout.InfosOk(t', rank, list[0], s.info)
    && FallThroughs.EntriesCounted(t', s.info)
    && Sorting.TotalPreorder(s.oracle.edgeBefore) && Sorting.TotalPreorder(s.oracle.hotter)
  }

  /** The list of t with connectors for its empty blocks, each block once, root first, connectors last. */
  ghost predicate Cleaned(list: seq<BlockId>, t: Table, blocks: seq<BlockId>) {
    |list| > 0 && BlockLayout.Final(t.Keys, Empties(t), list[0], blocks)
  }

  /** Empty blocks become connectors at the end, under frequency based layout in the order that it needs. */
  method Clean(list: seq<BlockId>, t: Table, freqBased: bool, uncommon: set<BlockId>)
    returns (blocks: seq<BlockId>, t': Table)
    requires ListOk(list, t)
    ensures Cleaned(list, t, blocks) && t' == Connected(t, Empties(t))
    ensures freqBased ==> BlockLayout.Orderly(blocks, t')
  {
    var cleaner := new BlockCleaner(list, t, freqBased, uncommon);
    ghost var tail := cleaner.RemoveEmptyBlocks();
    blocks, t' := cleaner.blocks, cleaner.table;
    if freqBased {
      SortedListIsOrderly(list, t, blocks);
    }
  }

  lemma SortedListIsOrderly(list: seq<BlockId>, t: Table, blocks: seq<BlockId>)
    requires ListOk(list, t) && NoDup(blocks) && Elems(blocks) == t.Keys
    requires blocks == Sorted(list[0], list[1..], Empties(t), |list| - 1)
    ensures BlockLayout.Orderly(blocks, Connected(t, Empties(t)))
  {
    SameLength(list, blocks);
    SortedIsOrderly(list, t, blocks);
  }

  lemma SameLength(a: seq<BlockId>, b: seq<BlockId>)
    requires NoDup(a) && NoDup(b) && Elems(a) == Elems(b)
    ensures |a| == |b|
  {
    UniqueCount(a);
    UniqueCount(b);
  }

  /** Lays the cleaned graph out by frequency. */
  method LayOut(blocks: seq<BlockId>, t': Table, ghost rank: Rank, s: Settings)
    returns (ok: bool, blocks': seq<BlockId>, t1: Table)
    requires BlockLayout.Orderly(blocks, t') && Grounded(t', rank) && BlockLayout.InfosOk(t', rank, blocks[0], s.info)
    requires FallThroughs.EntriesCounted(t', s.info)
    requires Sorting.TotalPreorder(s.oracle.edgeBefore) && Sorting.TotalPreorder(s.oracle.hotter)
    ensures ok ==>
      BlockLayout.Final(t'.Keys, BlockLayout.Conns(t'), blocks[0], blocks') && TraceOrder.FlippedFrom(t', t1)
    ensures BlockLayout.Chained(blocks, t', rank, s.info) ==> ok
  {
    var layout := new BlockLayout.PhaseBlockLayout(blocks, t', s.info, rank, s.rotateLoops, s.oracle);
    ok := layout.LayOut();
    blocks', t1 := layout.blocks, layout.table;
  }

  /** Without blocks of a single predecessor entry, no block must follow another one. */
  lemma NothingToChain(blocks: seq<BlockId>, t: Table, rank: Rank, info: map<BlockId, FallThroughs.Info>)
    ensures (forall n :: n in t ==> n in info && info[n].numPreds != 1) ==> BlockLayout.Chained(blocks, t, rank, info)
  {
    if forall n :: n in t ==> n in info && info[n].numPreds != 1 {
      forall p: nat ensures BlockLayout.ChainAt(blocks, t, rank, info, p) {
      }
    }
  }

  /** fixup_flow on a new object. */
  method FixUp(blocks: seq<BlockId>, table: Table, ghost rank: Rank, nextId: BlockId, s: Settings)
    returns (f: Flow, labels: map<BlockId, nat>, ghost run: seq<Flow>)
    requires Input(blocks, table, rank) && AllBelow(table.Keys, nextId)
    ensures Finishes(rank, run, Flow(blocks, table, nextId), f, labels)
  {
    var cfg := new PhaseCFG(blocks, table, nextId, map[], rank, s.freqBased, s.prefersSecond, s.neverTrue);
    run := cfg.FixupFlow();
    f, labels := Flow(cfg.blocks, cfg.table, cfg.nextId), cfg.preOrder;
  }

  /** run is a run of fixup_flow from f0 to f, which labels every block with its position. */
  ghost predicate Finishes(rank: Rank, run: seq<Flow>, f0: Flow, f: Flow, labels: map<BlockId, nat>) {
    IsRun(rank, run) && |run| == |f.blocks| + 1 && run[0] == f0 && run[|run| - 1] == f &&
      Labels(f.blocks, labels, |f.blocks|)
  }

  /** Every block that is not empty can be started from, with all outcomes. */
  ghost predicate Emits(t: Table, rank: Rank, t1: Table, f: Flow, labels: map<BlockId, nat>)
    requires Before(t, rank)
  {
    forall b: BlockId, ds: seq<nat> :: b in t && !t[b].empty ==> EmitsRun(t, rank, t1, f, labels, b, ds)
  }

  lemma FinishedEmits(list: seq<BlockId>, t: Table, rank: Rank, run: seq<Flow>, f0: Flow, f: Flow,
                      labels: map<BlockId, nat>)
    requires GraphOk(list, t, rank) && Finishes(rank, run, f0, f, labels)
    requires Cleaned(list, t, f0.blocks) && TraceOrder.FlippedFrom(Connected(t, Empties(t)), f0.table)
    ensures Emits(t, rank, f0.table, f, labels)
  {
    ConnsAreEmpties(t);
    forall b: BlockId, ds: seq<nat> | b in t && !t[b].empty ensures EmitsRun(t, rank, f0.table, f, labels, b, ds) {
      EmissionKeepsRuns(list, t, rank, f0.blocks, run, labels, b, ds);
    }
  }

  lemma ConnsAreEmpties(t: Table)
    requires forall b :: b in t ==> !t[b].connector
    ensures BlockLayout.Conns(Connected(t, Empties(t))) == Empties(t)
  {
  }

  lemma ReadyForFixup(list: seq<BlockId>, t: Table, rank: Rank, cleaned: seq<BlockId>, blocks: seq<BlockId>, t1: Table)
    requires GraphOk(list, t, rank) && Cleaned(list, t, cleaned) && Cleaned(list, t, blocks)
    requires TraceOrder.FlippedFrom(Connected(t, Empties(t)), t1)
    ensures Input(blocks, t1, rank) && t1.Keys == t.Keys
  {
    CleanedInput(list, t, rank, cleaned);
    TraceOrder.ReorderedInput(cleaned, Connected(t, Empties(t)), rank, blocks, t1);
  }

  /**
   * The phases in a row.  Whenever the layout succeeds, or there is none, the emitted list does what the graph
   * does, from every block that is not empty and for all branch outcomes.
   */
  method Emit(list: seq<BlockId>, t: Table, ghost rank: Rank, nextId: BlockId, s: Settings)
    returns (ok: bool, f: Flow, labels: map<BlockId, nat>, ghost t1: Table)
    requires GraphOk(list, t, rank) && SettingsOk(list, t, rank, s) && AllBelow(t.Keys, nextId)
    ensures ok ==> Emits(t, rank, t1, f, labels)
    ensures !s.freqBased || (forall n :: n in t ==> n in s.info && s.info[n].numPreds != 1) ==> ok
  {
    var blocks, table := Clean(list, t, s.freqBased, s.uncommon);
    ghost var cleaned := blocks;
    ok := true;
    ConnsAreEmpties(t);
    if s.freqBased {
      NothingToChain(blocks, table, rank, s.info);
      ok, blocks, table := LayOut(blocks, table, rank, s);
    }
    t1, f, labels := table, Flow(blocks, table, nextId), map[];
    if ok {
      ReadyForFixup(list, t, rank, cleaned, blocks, table);
      ghost var f0, run := f, [];
      f, labels, run := FixUp(blocks, table, rank, nextId, s);
      FinishedEmits(list, t, rank, run, f0, f, labels);
    }
  }
}
