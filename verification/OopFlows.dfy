/**
 * The forward pass of oop-map construction (opto/buildOopMap.cpp, BuildOopMaps and
 * OopFlow): reaching definitions are pushed over the blocks, and the structure that
 * holds those of a finished predecessor is handed on instead of copied when no other
 * block can need it.
 */
module OopFlows {
  import opened Wrappers
  import opened ReachingDefs

  type BlockId = nat
  type FlowId = nat

  // ----- The graph -----

  datatype Cfg = Cfg(
    succs: map<BlockId, seq<BlockId>>,
    preds: map<BlockId, seq<BlockId>>,
    nodes: map<BlockId, seq<FlowNode>>,
    entry: BlockId,
    root: BlockId)

  ghost predicate EdgeOk(g: Cfg, p: BlockId, b: BlockId)
    requires g.succs.Keys == g.preds.Keys == g.nodes.Keys
  {
    p in g.succs && b in g.succs[p] ==> b in g.preds && p in g.preds[b]
  }

  ghost predicate PredOk(g: Cfg, p: BlockId, b: BlockId)
    requires g.succs.Keys == g.preds.Keys == g.nodes.Keys
  {
    b in g.preds && p in g.preds[b] ==> p in g.succs && b in g.succs[p]
  }

  predicate CfgShaped(g: Cfg) {
    && g.succs.Keys == g.preds.Keys == g.nodes.Keys
    && g.entry in g.succs && g.root in g.succs && g.entry != g.root
  }

  /** Successors and predecessors mirror each other. */
  ghost predicate CfgOk(g: Cfg) {
    && CfgShaped(g)
    && (forall p: BlockId, b: BlockId :: EdgeOk(g, p, b))
    && (forall p: BlockId, b: BlockId :: PredOk(g, p, b))
    && (forall b: BlockId, i: nat, c: BlockId, j: nat :: NodesApart(g, b, i, c, j))
  }

  /** Safepoints are different nodes. */
  ghost predicate NodesApart(g: Cfg, b: BlockId, i: nat, c: BlockId, j: nat) {
    && b in g.nodes && i < |g.nodes[b]| && g.nodes[b][i].safepoint
    && c in g.nodes && j < |g.nodes[c]| && g.nodes[c][j].safepoint
    && g.nodes[b][i].id == g.nodes[c][j].id
    ==> b == c && i == j
  }

  ghost predicate ClosedAt(g: Cfg, s: set<BlockId>, b: BlockId) {
    b in g.succs ==> forall c :: c in g.succs[b] && c != g.root ==> c in s
  }

  ghost predicate Closed(g: Cfg, s: set<BlockId>) {
    g.entry in s && forall b :: b in s ==> ClosedAt(g, s, b)
  }

  /** s is the set of blocks reachable from the entry, other than the root block and what lies behind it. */
  ghost predicate Reachable(g: Cfg, s: set<BlockId>) {
    Closed(g, s) && forall s2: set<BlockId> :: Closed(g, s2) ==> s <= s2
  }

  /** A flow structure: the block whose end it describes, and the reaching definitions there. */
  datatype OopFlow = OopFlow(block: Option<BlockId>, reach: Reach)

  /** Each safepoint of the block has a map built from the definitions that reach it. */
  ghost predicate Mapped(nodes: seq<FlowNode>, start: Reach, maps: map<NodeId, Reach>) {
    forall i :: 0 <= i < |nodes| && nodes[i].safepoint ==>
      nodes[i].id in maps && maps[nodes[i].id] == AfterAll(start, nodes[..i])
  }

  // ----- Paths -----

  /** path leads from the entry, along successors, to the start of b. */
  ghost predicate LeadsUpTo(g: Cfg, path: seq<BlockId>, b: BlockId) {
    && (forall i :: 0 <= i < |path| - 1 ==> path[i] in g.succs && path[i + 1] in g.succs[path[i]])
    && if path == [] then b == g.entry
       else path[0] == g.entry && path[|path| - 1] in g.succs && b in g.succs[path[|path| - 1]]
  }

  /** The nodes executed along path. */
  ghost function NodesOn(g: Cfg, path: seq<BlockId>): seq<FlowNode> {
    if path == [] then []
    else
      var last := path[|path| - 1];
      NodesOn(g, path[..|path| - 1]) + if last in g.nodes then g.nodes[last] else []
  }

  /** start is what reaches b along some path. */
  ghost predicate CameAlong(g: Cfg, b: BlockId, start: Reach) {
    exists path :: LeadsUpTo(g, path, b) && start == AfterAll(NOTHING, NodesOn(g, path))
  }

  lemma CameFurther(g: Cfg, p: BlockId, start: Reach, b: BlockId)
    requires CameAlong(g, p, start) && p in g.nodes && p in g.succs && b in g.succs[p]
    ensures CameAlong(g, b, AfterAll(start, g.nodes[p]))
  {
    var path :| LeadsUpTo(g, path, p) && start == AfterAll(NOTHING, NodesOn(g, path));
    var longer := path + [p];
    assert longer[..|longer| - 1] == path;
    AfterBoth(NOTHING, NodesOn(g, path), g.nodes[p]);
    assert LeadsUpTo(g, longer, b);
  }

  lemma CameFirst(g: Cfg)
    ensures CameAlong(g, g.entry, NOTHING)
  {
    assert LeadsUpTo(g, [], g.entry) && NodesOn(g, []) == [];
  }

  /** The map of node i of b says what was executed along some path to it. */
  ghost predicate MapSays(g: Cfg, maps: map<NodeId, Reach>, b: BlockId, i: nat) {
    b in g.nodes && i < |g.nodes[b]| && g.nodes[b][i].id in maps &&
    exists path :: LeadsUpTo(g, path, b) && Says(maps[g.nodes[b][i].id], NodesOn(g, path) + g.nodes[b][..i])
  }

  lemma MappedSays(g: Cfg, maps: map<NodeId, Reach>, b: BlockId, i: nat, start: Reach)
    requires b in g.nodes && Mapped(g.nodes[b], start, maps) && CameAlong(g, b, start)
    requires i < |g.nodes[b]| && g.nodes[b][i].safepoint
    ensures MapSays(g, maps, b, i)
  {
    var path :| LeadsUpTo(g, path, b) && start == AfterAll(NOTHING, NodesOn(g, path));
    AfterBoth(NOTHING, NodesOn(g, path), g.nodes[b][..i]);
    ReachSays(NodesOn(g, path) + g.nodes[b][..i]);
  }

  // ----- Invariant of the pass -----

  /** flows maps finished blocks to their structures; starts and ends are what reached their start and end. */
  datatype Pass = Pass(
    flows: map<BlockId, FlowId>,
    store: map<FlowId, OopFlow>,
    maps: map<NodeId, Reach>,
    starts: map<BlockId, Reach>,
    ends: map<BlockId, Reach>)

  /** Some successor of p is not finished. */
  ghost predicate Needed(g: Cfg, done: set<BlockId>, p: BlockId) {
    p in g.succs && exists c :: c in g.succs[p] && c !in done
  }

  ghost predicate Shaped(g: Cfg, s: Pass) {
    && s.flows.Keys <= g.succs.Keys && g.root !in s.flows
    && s.starts.Keys == s.flows.Keys && s.ends.Keys == s.flows.Keys
    && forall b :: b in s.flows ==> s.flows[b] in s.store
  }

  /** While p may be consulted, its structure belongs to it and describes its end. */
  ghost predicate Owns(g: Cfg, s: Pass, p: BlockId) {
    p in s.flows && p in s.ends && Needed(g, s.flows.Keys, p) ==>
      s.flows[p] in s.store && s.store[s.flows[p]] == OopFlow(Some(p), s.ends[p])
  }

  /** b was entered with what reached the end of some predecessor, and gave maps to its safepoints. */
  ghost predicate Flowed(g: Cfg, s: Pass, b: BlockId)
    requires Shaped(g, s) && g.succs.Keys == g.nodes.Keys
  {
    b in s.flows ==>
      && s.ends[b] == AfterAll(s.starts[b], g.nodes[b])
      && Mapped(g.nodes[b], s.starts[b], s.maps) && CameAlong(g, b, s.starts[b])
      && if b == g.entry then s.starts[b] == NOTHING else EnteredFrom(g, s, b)
  }

  ghost predicate EnteredFrom(g: Cfg, s: Pass, b: BlockId)
    requires Shaped(g, s) && b in s.flows
  {
    exists p :: p in s.flows && b in g.succs[p] && s.starts[b] == s.ends[p]
  }

  ghost predicate PassOk(g: Cfg, s: Pass) {
    && CfgOk(g) && Shaped(g, s)
    && (forall p: BlockId :: Owns(g, s, p))
    && (forall b: BlockId :: Flowed(g, s, b))
  }

  /** PassOk, folded: it opens where PassOk is mentioned. */
  ghost predicate Sound(g: Cfg, s: Pass) {
    CfgShaped(g) && Shaped(g, s) && forall t: Pass :: t == s ==> PassOk(g, t)
  }

  lemma SoundCfg(g: Cfg, s: Pass)
    requires Sound(g, s)
    ensures CfgOk(g)
  {
    assert PassOk(g, s);
  }

  /** Whenever the structure of a finished predecessor is consulted, it still belongs to that predecessor. */
  lemma PredecessorOwns(g: Cfg, s: Pass, b: BlockId, p: BlockId)
    requires Sound(g, s) && b in g.preds && b !in s.flows && p in g.preds[b] && p in s.flows
    ensures p in s.ends && s.flows[p] in s.store && s.store[s.flows[p]] == OopFlow(Some(p), s.ends[p])
    ensures p in g.succs && b in g.succs[p]
  {
    assert PassOk(g, s);
    assert PredOk(g, p, b);
    assert Owns(g, s, p);
  }

  /** Block b finished in structure f, entered from p. */
  function Finished(g: Cfg, s: Pass, b: BlockId, f: FlowId, start: Reach, maps: map<NodeId, Reach>): Pass
    requires b in g.nodes
  {
    var end := AfterAll(start, g.nodes[b]);
    Pass(s.flows[b := f], s.store[f := OopFlow(Some(b), end)], maps, s.starts[b := start], s.ends[b := end])
  }

  /** The maps of b's safepoints are new, the others are kept. */
  ghost predicate MapsAdded(nodes: seq<FlowNode>, start: Reach, maps: map<NodeId, Reach>, maps': map<NodeId, Reach>) {
    && Mapped(nodes, start, maps')
    && forall n :: n in maps && NoSafepoint(nodes, n) ==> n in maps' && maps'[n] == maps[n]
  }

  ghost predicate NoSafepoint(nodes: seq<FlowNode>, n: NodeId) {
    forall i :: 0 <= i < |nodes| && nodes[i].safepoint ==> nodes[i].id != n
  }

  /** The structure f is new, or that of a predecessor that nobody but b can need. */
  ghost predicate Usable(g: Cfg, s: Pass, b: BlockId, f: FlowId) {
    || f !in s.store
    || exists p ::
         && p in s.flows && p in s.ends && s.flows[p] == f && s.store[f] == OopFlow(Some(p), s.ends[p])
         && !Needed(g, s.flows.Keys + {b}, p)
  }

  lemma OwnsStays(g: Cfg, s: Pass, b: BlockId, f: FlowId, start: Reach, maps: map<NodeId, Reach>, p: BlockId)
    requires PassOk(g, s) && b in g.nodes && b !in s.flows && Usable(g, s, b, f)
    ensures Owns(g, Finished(g, s, b, f, start, maps), p)
  {
    var s2 := Finished(g, s, b, f, start, maps);
    if p != b && p in s.flows && Needed(g, s2.flows.Keys, p) {
      assert s2.flows.Keys == s.flows.Keys + {b};
      assert Needed(g, s.flows.Keys, p);
      assert Owns(g, s, p);
    }
  }

  lemma MappedStays(g: Cfg, b: BlockId, c: BlockId, start: Reach, startC: Reach, maps: map<NodeId, Reach>,
                    maps': map<NodeId, Reach>)
    requires CfgOk(g) && b in g.nodes && c in g.nodes && b != c
    requires MapsAdded(g.nodes[b], start, maps, maps') && Mapped(g.nodes[c], startC, maps)
    ensures Mapped(g.nodes[c], startC, maps')
  {
    forall j: nat | j < |g.nodes[c]| && g.nodes[c][j].safepoint
      ensures g.nodes[c][j].id in maps' && maps'[g.nodes[c][j].id] == AfterAll(startC, g.nodes[c][..j])
    {
      forall i: nat | i < |g.nodes[b]| && g.nodes[b][i].safepoint ensures g.nodes[b][i].id != g.nodes[c][j].id {
        assert NodesApart(g, b, i, c, j);
      }
    }
  }

  /** b, which is not finished yet, is entered with start. */
  ghost predicate EntersWith(g: Cfg, s: Pass, b: BlockId, start: Reach)
    requires Shaped(g, s)
  {
    && b in g.nodes && b !in s.flows && b != g.root
    && if b == g.entry then start == NOTHING else exists p :: p in s.flows && b in g.succs[p] && start == s.ends[p]
  }

  lemma CameTo(g: Cfg, s: Pass, b: BlockId, start: Reach)
    requires PassOk(g, s) && EntersWith(g, s, b, start)
    ensures CameAlong(g, b, start)
  {
    if b == g.entry {
      CameFirst(g);
    } else {
      var p :| p in s.flows && b in g.succs[p] && start == s.ends[p];
      assert Flowed(g, s, p);
      CameFurther(g, p, s.starts[p], b);
    }
  }

  lemma FlowedNew(g: Cfg, s: Pass, b: BlockId, f: FlowId, start: Reach, maps: map<NodeId, Reach>)
    requires PassOk(g, s) && EntersWith(g, s, b, start) && MapsAdded(g.nodes[b], start, s.maps, maps)
    ensures Shaped(g, Finished(g, s, b, f, start, maps)) && Flowed(g, Finished(g, s, b, f, start, maps), b)
  {
    CameTo(g, s, b, start);
    var s2 := Finished(g, s, b, f, start, maps);
    if b != g.entry {
      var p :| p in s.flows && b in g.succs[p] && start == s.ends[p];
      assert p in s2.flows && s2.ends[p] == start;
    }
  }

  lemma FlowedStays(g: Cfg, s: Pass, b: BlockId, f: FlowId, start: Reach, maps: map<NodeId, Reach>, c: BlockId)
    requires PassOk(g, s) && EntersWith(g, s, b, start) && MapsAdded(g.nodes[b], start, s.maps, maps) && c != b
    requires Shaped(g, Finished(g, s, b, f, start, maps))
    ensures Flowed(g, Finished(g, s, b, f, start, maps), c)
  {
    var s2 := Finished(g, s, b, f, start, maps);
    if c in s.flows {
      assert Flowed(g, s, c);
      MappedStays(g, b, c, start, s.starts[c], s.maps, maps);
      if c != g.entry {
        var p :| p in s.flows && c in g.succs[p] && s.starts[c] == s.ends[p];
        assert p in s2.flows && s2.ends[p] == s.ends[p];
      }
    }
  }

  /** Finishing a block with a usable structure keeps the invariant. */
  lemma FinishedOk(g: Cfg, s: Pass, b: BlockId, f: FlowId, start: Reach, maps: map<NodeId, Reach>)
    requires Sound(g, s) && EntersWith(g, s, b, start) && Usable(g, s, b, f)
    requires MapsAdded(g.nodes[b], start, s.maps, maps)
    ensures Sound(g, Finished(g, s, b, f, start, maps))
  {
    assert PassOk(g, s);
    forall p: BlockId ensures Owns(g, Finished(g, s, b, f, start, maps), p) {
      OwnsStays(g, s, b, f, start, maps, p);
    }
    FlowedNew(g, s, b, f, start, maps);
    forall c: BlockId ensures Flowed(g, Finished(g, s, b, f, start, maps), c) {
      if c != b {
        FlowedStays(g, s, b, f, start, maps, c);
      }
    }
  }

  // ----- The worklist -----

  ghost predicate Entered(g: Cfg, done: set<BlockId>, c: BlockId) {
    c == g.root || (c in g.preds && exists p :: p in done && p in g.preds[c])
  }

  /** Pending blocks have a finished predecessor, and every block that is due is finished or pending. */
  ghost predicate WorkAt(g: Cfg, done: set<BlockId>, worklist: seq<BlockId>) {
    && (forall i :: 0 <= i < |worklist| ==> Entered(g, done, worklist[i]))
    && (forall b :: b in done ==> ClosedAt(g, done + (set c | c in worklist), b))
    && forall s: set<BlockId> :: Closed(g, s) ==> done <= s && forall c :: c in worklist && c != g.root ==> c in s
  }

  /** WorkAt, folded: it opens where WorkAt is mentioned. */
  ghost predicate WorkOk(g: Cfg, done: set<BlockId>, worklist: seq<BlockId>) {
    forall w: seq<BlockId> :: w == worklist ==> WorkAt(g, done, w)
  }

  lemma NextEntered(g: Cfg, done: set<BlockId>, worklist: seq<BlockId>, b: BlockId)
    requires WorkOk(g, done, worklist + [b])
    ensures Entered(g, done, b)
  {
    var more := worklist + [b];
    assert WorkAt(g, done, more);
    assert Entered(g, done, more[|worklist|]);
  }

  lemma WorkDone(g: Cfg, done: set<BlockId>)
    requires WorkOk(g, done, []) && g.entry in done
    ensures Reachable(g, done)
  {
    assert WorkAt(g, done, []);
    assert done + (set c | c in []) == done;
  }

  lemma EnteredMore(g: Cfg, done: set<BlockId>, more: set<BlockId>, c: BlockId)
    requires Entered(g, done, c) && done <= more
    ensures Entered(g, more, c)
  {
  }

  /** The last pending block is finished already, or the root block. */
  lemma WorkSkipped(g: Cfg, done: set<BlockId>, worklist: seq<BlockId>, b: BlockId)
    requires WorkOk(g, done, worklist + [b]) && (b in done || b == g.root)
    ensures WorkOk(g, done, worklist)
  {
    var more := worklist + [b];
    assert WorkAt(g, done, more);
    forall i | 0 <= i < |worklist| ensures Entered(g, done, worklist[i]) {
      assert more[i] == worklist[i];
    }
    forall x | x in done ensures ClosedAt(g, done + (set c | c in worklist), x) {
      assert ClosedAt(g, done + (set c | c in more), x);
    }
    forall s: set<BlockId> | Closed(g, s) ensures done <= s && forall c :: c in worklist && c != g.root ==> c in s {
      assert forall c :: c in worklist ==> c in more;
    }
  }

  /** The last pending block is finished, and its successors become pending. */
  lemma WorkFinished(g: Cfg, done: set<BlockId>, worklist: seq<BlockId>, b: BlockId)
    requires CfgOk(g) && WorkOk(g, done, worklist + [b]) && b in g.succs && b != g.root
    ensures WorkOk(g, done + {b}, worklist + g.succs[b])
  {
    var before, after := worklist + [b], worklist + g.succs[b];
    assert WorkAt(g, done, before);
    assert before[|worklist|] == b;
    forall i | 0 <= i < |after| ensures Entered(g, done + {b}, after[i]) {
      if i < |worklist| {
        assert before[i] == after[i];
        EnteredMore(g, done, done + {b}, after[i]);
      } else {
        assert after[i] in g.succs[b];
        assert EdgeOk(g, b, after[i]);
      }
    }
    forall x | x in done + {b} ensures ClosedAt(g, done + {b} + (set c | c in after), x) {
      if x != b {
        assert ClosedAt(g, done + (set c | c in before), x);
      }
    }
    forall s: set<BlockId> | Closed(g, s) ensures done + {b} <= s && forall c :: c in after && c != g.root ==> c in s {
      assert b in before;
      assert ClosedAt(g, s, b);
      assert forall c :: c in worklist ==> c in before;
    }
  }

  ghost predicate OnceIn(keys: set<BlockId>, order: seq<BlockId>) {
    keys == (set b | b in order) && forall i, j :: 0 <= i < j < |order| ==> order[i] != order[j]
  }

  lemma OnceMore(keys: set<BlockId>, order: seq<BlockId>, b: BlockId)
    requires OnceIn(keys, order) && b !in keys
    ensures OnceIn(keys + {b}, order + [b])
  {
    assert forall i :: 0 <= i < |order| ==> order[i] in keys;
  }

  class OopFlowPass {
    const g: Cfg
    var flows: map<BlockId, FlowId>
    var store: map<FlowId, OopFlow>
    var nextFlow: FlowId
    /** For each safepoint, the reaching definitions that its map is built from. */
    var maps: map<NodeId, Reach>
    var worklist: seq<BlockId>
    ghost var starts: map<BlockId, Reach>
    ghost var ends: map<BlockId, Reach>
    /** The blocks in the order in which they were flowed over. */
    var order: seq<BlockId>

    constructor (g: Cfg)
      ensures this.g == g && flows == map[] && store == map[] && maps == map[] && worklist == [] && nextFlow == 0
      ensures starts == map[] && ends == map[] && order == []
    {
      this.g := g;
      flows, store, nextFlow, maps, worklist := map[], map[], 0, map[], [];
      starts, ends, order := map[], map[], [];
    }

    ghost function Now(): Pass
      reads this`flows, this`store, this`maps, this`starts, this`ends
    {
      Pass(flows, store, maps, starts, ends)
    }

    ghost predicate Valid()
      reads this`flows, this`store, this`maps, this`starts, this`ends, this`nextFlow
    {
      Sound(g, Now()) && forall f :: f in store ==> f < nextFlow
    }

    /** compute_reach: from the reaching definitions at the start of b to those at its end. */
    method ComputeReach(f: FlowId, b: BlockId)
      requires CfgOk(g) && b in g.nodes && f in store
      modifies this`store, this`maps
      ensures store == old(store)[f := OopFlow(old(store)[f].block, AfterAll(old(store)[f].reach, g.nodes[b]))]
      ensures MapsAdded(g.nodes[b], old(store)[f].reach, old(maps), maps)
    {
      var nodes := g.nodes[b];
      ghost var start := store[f].reach;
      for i := 0 to |nodes|
        invariant f in store && store == old(store)[f := store[f]] && store[f].block == old(store)[f].block
        invariant Reaching(f, b, i, start, old(maps))
      {
        ReachNext(f, b, i, start, old(maps));
      }
      assert nodes[..|nodes|] == nodes;
    }

    /** Structure f is what reaches node i of b, and the nodes before it have their maps. */
    ghost predicate Reaching(f: FlowId, b: BlockId, i: nat, start: Reach, maps0: map<NodeId, Reach>)
      reads this`store, this`maps
    {
      && b in g.nodes && i <= |g.nodes[b]| && f in store && store[f].reach == AfterAll(start, g.nodes[b][..i])
      && MapsAdded(g.nodes[b][..i], start, maps0, maps)
    }

    method ReachNext(f: FlowId, b: BlockId, i: nat, ghost start: Reach, ghost maps0: map<NodeId, Reach>)
      requires CfgOk(g) && b in g.nodes && i < |g.nodes[b]| && Reaching(f, b, i, start, maps0)
      modifies this`store, this`maps
      ensures Reaching(f, b, i + 1, start, maps0)
      ensures store == old(store)[f := store[f]] && store[f].block == old(store)[f].block
    {
      AfterNext(start, g.nodes[b], i);
      ghost var before := maps;
      StepOver(f, g.nodes[b][i]);
      MapsAddedNext(g, b, i, start, maps0, before, maps);
    }

    /** One node: a safepoint gets a map from what reaches it. */
    method StepOver(f: FlowId, n: FlowNode)
      requires f in store
      modifies this`store, this`maps
      ensures store == old(store)[f := OopFlow(old(store)[f].block, After(old(store)[f].reach, n))]
      ensures maps == if n.safepoint then old(maps)[n.id := old(store)[f].reach] else old(maps)
    {
      if n.safepoint {
        maps := maps[n.id := store[f].reach];
      }
      store := store[f := store[f].(reach := After(store[f].reach, n))];
    }

    /** All successors of p are finished except for b. */
    predicate LastFor(p: BlockId, b: BlockId)
      requires p in g.succs
      reads this
    {
      forall i :: 0 <= i < |g.succs[p]| ==> g.succs[p][i] in flows || g.succs[p][i] == b
    }

    /** A finished predecessor of b; carry tells whether its structure is free for b. */
    method FindPred(b: BlockId) returns (pred: BlockId, carry: bool)
      requires Valid() && b in g.preds && b !in flows && Entered(g, flows.Keys, b) && b != g.root
      ensures pred in flows && pred in g.preds[b] && b in g.succs[pred]
      ensures carry ==> !Needed(g, flows.Keys + {b}, pred)
      ensures !carry ==> forall p :: p in g.preds[b] && p in flows ==> Needed(g, flows.Keys + {b}, p)
    {
      pred, carry := 0, false;
      var found := false;
      var j := 0;
      while j < |g.preds[b]| && !carry
        invariant 0 <= j <= |g.preds[b]|
        invariant found ==> pred in flows && pred in g.preds[b]
        invariant !found ==> forall i :: 0 <= i < j ==> g.preds[b][i] !in flows
        invariant carry ==> found && !Needed(g, flows.Keys + {b}, pred)
        invariant !carry ==> forall i :: 0 <= i < j && g.preds[b][i] in flows ==>
          Needed(g, flows.Keys + {b}, g.preds[b][i])
      {
        var p := g.preds[b][j];
        if p in flows {
          // The cross check of the source: p's structure is still its own.
          PredecessorOwns(g, Now(), b, p);
          assert store[flows[p]].block == Some(p);
          pred, found := p, true;
          carry := LastFor(p, b);
        }
        j := j + 1;
      }
      assert found;
      PredecessorOwns(g, Now(), b, pred);
    }

    /** The structure that b is flowed over with: that of its predecessor, or a new copy of it. */
    method TakeFlow(b: BlockId, pred: BlockId, carry: bool) returns (f: FlowId)
      requires Valid() && b in g.preds && b !in flows && pred in flows && pred in g.preds[b]
      requires carry ==> !Needed(g, flows.Keys + {b}, pred)
      modifies this`store, this`nextFlow
      ensures Usable(g, old(Now()), b, f) && f < nextFlow && old(nextFlow) <= nextFlow
      ensures store == old(store)[f := OopFlow(Some(pred), ends[pred])]
    {
      PredecessorOwns(g, Now(), b, pred);
      if carry {
        f := flows[pred];
      } else {
        f := nextFlow;
        nextFlow := nextFlow + 1;
        store := store[f := store[flows[pred]]];
      }
    }

    /** Pushes flow f, which describes start, forward over b. */
    method FlowOver(b: BlockId, f: FlowId, ghost start: Reach, ghost s: Pass)
      requires CfgOk(g) && b in g.nodes && f in store && store[f].reach == start && store == s.store[f := store[f]]
      requires s.flows == flows && s.maps == maps && s.starts == starts && s.ends == ends
      modifies this`flows, this`store, this`maps, this`starts, this`ends, this`order
      ensures MapsAdded(g.nodes[b], start, s.maps, maps) && Now() == Finished(g, s, b, f, start, maps)
      ensures order == old(order) + [b]
    {
      flows := flows[b := f];
      store := store[f := store[f].(block := Some(b))];
      ComputeReach(f, b);
      starts, ends := starts[b := start], ends[b := AfterAll(start, g.nodes[b])];
      order := order + [b];
      assert store == s.store[f := OopFlow(Some(b), AfterAll(start, g.nodes[b]))];
    }

    /** One block, with the structure of a finished predecessor or a copy of it. */
    method FlowFrom(b: BlockId, pred: BlockId, carry: bool)
      requires Valid() && b in g.preds && b !in flows && b != g.root && b != g.entry
      requires pred in flows && pred in g.preds[b] && (carry ==> !Needed(g, flows.Keys + {b}, pred))
      modifies this`flows, this`store, this`nextFlow, this`maps, this`starts, this`ends, this`order
      ensures Valid() && flows.Keys == old(flows.Keys) + {b} && order == old(order) + [b]
    {
      ghost var s := Now();
      PredecessorOwns(g, s, b, pred);
      assert EntersWith(g, s, b, ends[pred]);
      var f := TakeFlow(b, pred, carry);
      SoundCfg(g, s);
      FlowOver(b, f, ends[pred], s);
      FinishedOk(g, s, b, f, s.ends[pred], maps);
    }

    /** One block with a finished predecessor. */
    method FlowBlock(b: BlockId)
      requires Valid() && OnceEach() && b in g.preds && b !in flows && Entered(g, flows.Keys, b) && b != g.root
      requires b != g.entry
      modifies this`flows, this`store, this`nextFlow, this`maps, this`starts, this`ends, this`order
      ensures Valid() && OnceEach() && flows.Keys == old(flows.Keys) + {b}
    {
      OnceMore(flows.Keys, order, b);
      var pred, carry := FindPred(b);
      FlowFrom(b, pred, carry);
    }

    /** The first block, by hand. */
    method FlowEntry()
      requires CfgOk(g) && flows == map[] && store == map[] && maps == map[] && starts == map[] && ends == map[]
      requires nextFlow == 0
      modifies this`flows, this`store, this`nextFlow, this`maps, this`starts, this`ends, this`order
      ensures Valid() && flows.Keys == {g.entry} && order == old(order) + [g.entry]
    {
      ghost var s := Now();
      var f := nextFlow;
      nextFlow := nextFlow + 1;
      store := store[f := OopFlow(None, NOTHING)];
      FlowOver(g.entry, f, NOTHING, s);
      FinishedOk(g, s, g.entry, f, NOTHING, maps);
    }

    /** Each finished block is in the order once. */
    ghost predicate OnceEach()
      reads this`flows, this`order
    {
      OnceIn(flows.Keys, order)
    }

    ghost predicate UnderWayFrom(entry: BlockId)
      reads this
    {
      Valid() && WorkOk(g, flows.Keys, worklist) && entry in flows && OnceEach()
    }

    /** The state between two pending blocks.  (Folded: it opens where UnderWayFrom is mentioned.) */
    ghost predicate UnderWay()
      reads this
    {
      forall e: BlockId :: e == g.entry ==> UnderWayFrom(e)
    }

    /** One pending block: flowed over, unless it is the root block or finished already. */
    method PopBlock()
      requires |worklist| > 0 && UnderWay()
      modifies this
      ensures UnderWay()
      ensures old(flows.Keys) <= flows.Keys && flows.Keys <= g.succs.Keys
      ensures old(flows.Keys) == flows.Keys ==> |worklist| < |old(worklist)|
    {
      assert UnderWayFrom(g.entry);
      var b := worklist[|worklist| - 1];
      ghost var rest, done := worklist[..|worklist| - 1], flows.Keys;
      assert worklist == rest + [b];
      NextEntered(g, done, rest, b);
      SoundCfg(g, Now());
      worklist := worklist[..|worklist| - 1];
      if b == g.root || b in flows {
        WorkSkipped(g, done, rest, b);
      } else {
        WorkFinished(g, done, rest, b);
        FlowBlock(b);
        worklist := worklist + g.succs[b];
      }
      assert UnderWayFrom(g.entry);
    }

    method DrainWorklist()
      requires UnderWay()
      modifies this
      ensures UnderWay() && worklist == []
    {
      while |worklist| > 0
        invariant UnderWay()
        decreases g.succs.Keys - flows.Keys, |worklist|
      {
        PopBlock();
      }
    }

    /**
     * BuildOopMaps: every block reachable from the entry is flowed over exactly once, entered with what reaches
     * the end of one of its predecessors, and all its safepoints get maps from what reaches them.
     */
    method BuildOopMaps()
      requires CfgOk(g) && flows == map[] && store == map[] && maps == map[] && starts == map[] && ends == map[]
      requires nextFlow == 0 && order == []
      modifies this
      ensures PassOk(g, Now()) && Reachable(g, flows.Keys) && OnceEach()
      ensures forall b: BlockId, i: nat :: b in flows && b in g.nodes && i < |g.nodes[b]| && g.nodes[b][i].safepoint ==>
        MapSays(g, maps, b, i)
    {
      FlowEntry();
      worklist := g.succs[g.entry];
      WorkStart(g);
      assert UnderWayFrom(g.entry);
      DrainWorklist();
      assert UnderWayFrom(g.entry);
      WorkDone(g, flows.Keys);
      AllSay(g, Now());
    }
  }

  lemma AllSay(g: Cfg, s: Pass)
    requires Sound(g, s)
    ensures forall b: BlockId, i: nat :: b in s.flows && b in g.nodes && i < |g.nodes[b]| && g.nodes[b][i].safepoint ==>
      MapSays(g, s.maps, b, i)
  {
    assert PassOk(g, s);
    forall b: BlockId, i: nat | b in s.flows && b in g.nodes && i < |g.nodes[b]| && g.nodes[b][i].safepoint
      ensures MapSays(g, s.maps, b, i)
    {
      assert Flowed(g, s, b);
      MappedSays(g, s.maps, b, i, s.starts[b]);
    }
  }

  lemma WorkStart(g: Cfg)
    requires CfgOk(g)
    ensures WorkOk(g, {g.entry}, g.succs[g.entry])
  {
    var worklist := g.succs[g.entry];
    forall i | 0 <= i < |worklist| ensures Entered(g, {g.entry}, worklist[i]) {
      assert EdgeOk(g, g.entry, worklist[i]);
    }
    forall s: set<BlockId> | Closed(g, s)
      ensures {g.entry} <= s && forall c :: c in worklist && c != g.root ==> c in s
    {
      assert ClosedAt(g, s, g.entry);
    }
  }

  lemma MappedNext(g: Cfg, b: BlockId, i: nat, start: Reach, maps: map<NodeId, Reach>, maps': map<NodeId, Reach>)
    requires CfgOk(g) && b in g.nodes && i < |g.nodes[b]| && Mapped(g.nodes[b][..i], start, maps)
    requires maps' == if g.nodes[b][i].safepoint then maps[g.nodes[b][i].id := AfterAll(start, g.nodes[b][..i])]
      else maps
    ensures Mapped(g.nodes[b][..i + 1], start, maps')
  {
    var nodes := g.nodes[b];
    forall j: nat | j < i + 1 && nodes[j].safepoint
      ensures nodes[j].id in maps' && maps'[nodes[j].id] == AfterAll(start, nodes[..i + 1][..j])
    {
      assert nodes[..i + 1][..j] == nodes[..j];
      if j < i {
        assert nodes[..i][j] == nodes[j] && nodes[..i][..j] == nodes[..j];
        assert NodesApart(g, b, i, b, j);
      }
    }
  }

  lemma AfterNext(start: Reach, nodes: seq<FlowNode>, i: nat)
    requires i < |nodes|
    ensures AfterAll(start, nodes[..i + 1]) == After(AfterAll(start, nodes[..i]), nodes[i])
  {
    assert nodes[..i + 1][..i] == nodes[..i];
  }

  lemma MapsAddedNext(g: Cfg, b: BlockId, i: nat, start: Reach, maps0: map<NodeId, Reach>, maps: map<NodeId, Reach>,
                      maps': map<NodeId, Reach>)
    requires CfgOk(g) && b in g.nodes && i < |g.nodes[b]| && MapsAdded(g.nodes[b][..i], start, maps0, maps)
    requires maps' == if g.nodes[b][i].safepoint then maps[g.nodes[b][i].id := AfterAll(start, g.nodes[b][..i])]
      else maps
    ensures MapsAdded(g.nodes[b][..i + 1], start, maps0, maps')
  {
    MappedNext(g, b, i, start, maps, maps');
    var nodes := g.nodes[b];
    assert nodes[..i + 1][i] == nodes[i];
    forall n | n in maps0 && NoSafepoint(nodes[..i + 1], n) ensures n in maps' && maps'[n] == maps0[n] {
      assert forall j :: 0 <= j < i ==> nodes[..i][j] == nodes[..i + 1][j];
      assert NoSafepoint(nodes[..i], n);
    }
  }
}
