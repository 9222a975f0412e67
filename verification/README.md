# Verified models of the C2 stack-allocation changes

This project models the self-contained algorithms of the HotSpot C2 compiler that the
stack-allocation change set touches, and proves what they are for.  Each part is a
state machine or an in-place algorithm over abstract blocks, nodes, registers or
memory; nothing of HotSpot beyond those abstractions is needed.

- **Control-flow layout** (`ControlFlow`, `EmptyBlocks`, `UnionFind`, `Traces`,
  `TraceOrder`, `FallThroughs`, `Sorting`, `BlockLayout`, `FixupFlow`, `Emission`).
  Empty blocks become connectors, traces are gathered over a union-find, and the block
  list is fixed up with moves, gotos and negated branches.  The meaning of the graph, the
  sequence of blocks visited for any branch outcomes, is carried through every phase and,
  in `Emission`, through all of them in a row.
- **Escape analysis** (`EscapeStates`, `PointsTo`, `PointsToCompletion`,
  `StackAllocation`, `PointerCompare`).  The worklists compute least and greatest
  solutions; comparisons are folded soundly.
- **Frames and collections** (`StackWalk`, `DerivedPointers`, `OopMapValues`,
  `ImmutableOopMaps`).  The walk over stack objects is exact, derived pointers follow
  their bases, and the immutable form of oop maps loses nothing.
- **Liveness and oop maps** (`Liveness`, `ReachingDefs`, `OopFlows`, `SafepointMaps`).
  Live means needed on some path, reaching definitions and callee-saved values are those
  of some path, flow structures are recycled safely, and the maps built are well formed.
- **Debug information** (`DebugInfo`).  Object graphs survive writing and reading.
- **Logic cones and alias types** (`LogicCone`, `LogicPacking`, `LogicRewrite`,
  `AliasTypes`).  Packing keeps every bit of every vector; the alias cache is
  transparent.

Conventions.  `Wrappers` and `Lists` hold shared vocabulary.  Blocks, nodes and
objects are table entries keyed by ids; lists and
dictionaries that the source updates are `seq` and `map` fields; the buffers of
`UnionFind`, `ImmutableOopMaps` and the alias cache are arrays.  Frequencies, probabilities,
`is_uncommon`, reverse post order numbers and edge sort keys are arbitrary parameters.
A block whose `num_preds()` is 1 (its head is a projection) is entered along one edge at
most.  Streams are sequences of tokens.  Termination arguments that the source leaves to the
shape of its input (connector chains, copy chains, the node graph) are given as ghost ranks.
Classes that the sources only use are taken at their obvious meaning: `Trace` is a
sequence of blocks, `UnionFind::Find` and `map` are what their names say,
`LockFreeStack`, `Location` and `OopRecorder` are sequences and numbers.

Where code and comments part, the code is followed:

- `find_edges` reads the fall-through count of the block before the one just appended
  (block.cpp:1450); the model does the same.
- `grow_traces` sets `i = 0` to look at all edges again, but the loop then goes on with
  the second edge.  `GrowTraces` shows that the first one needs no second look: it leaves
  the end of its trace and enters one at its start, so it was dealt with for good.
- `is_Empty` of block.cpp takes a block without predecessors for empty whatever it
  holds; `EmptyBlocksDontMatter` speaks of blocks that control can reach.
- An `OopMapValue` read for a type without content keeps the content register of the
  entry read before; `Same` in `OopMapValues` compares what is meaningful.

## Model

| member | source | states |
|---|---|---|
| `ControlFlow.Resolve` | stack_allocation/webrev/src/hotspot/share/opto/block.cpp:798-800 | Following first successors through connectors ends, at a block of the graph that is not a connector |
| `ControlFlow.ResolveSkips` | stack_allocation/webrev/src/hotspot/share/opto/block.cpp:798-800 | It is the end of the path from connector to connector along first successors |
| `ControlFlow.ResolveKept` | stack_allocation/webrev/src/hotspot/share/opto/block.cpp:798-800 | Two graphs with the same connectors skip to the same blocks, whatever else differs |
| `ControlFlow.LinRunThroughGoto` | stack_allocation/webrev/src/hotspot/share/opto/block.cpp:504-543 | An inserted goto block adds nothing to the original blocks that the list visits |
| `ControlFlow.SameRun` | stack_allocation/webrev/src/hotspot/share/opto/block.cpp:783-941 | If every step of the list agrees with the graph, whole executions agree, for every sequence of branch outcomes |
| `FixupFlow.MovedList` | stack_allocation/webrev/src/hotspot/share/opto/block.cpp:611-642 | Moving a block up keeps the list a permutation and leaves everything up to the current position alone |
| `FixupFlow.InsertedList` | stack_allocation/webrev/src/hotspot/share/opto/block.cpp:504-543 | Inserting a goto block adds exactly that block behind the current position |
| `FixupFlow.BlockFixTable` | stack_allocation/webrev/src/hotspot/share/opto/block.cpp:783-941 | After its iteration every kind of block (goto, If, null check, trap based check, catch, jump) leads, for every outcome, where the original graph leads, and no finished block is disturbed |
| `FixupFlow.BlockFixList` | stack_allocation/webrev/src/hotspot/share/opto/block.cpp:783-941 | An iteration keeps the list without duplicates, complete, and unchanged up to its position |
| `FixupFlow.PassStep` | stack_allocation/webrev/src/hotspot/share/opto/block.cpp:783-941 | One iteration keeps the invariant of the pass; the list grows only while blocks of the original graph are being finished, which is why the pass ends |
| `FixupFlow.RunNext` | stack_allocation/webrev/src/hotspot/share/opto/block.cpp:783-941 | After i iterations the first i positions are final |
| `FixupFlow.FixupPreservesRuns` | stack_allocation/webrev/src/hotspot/share/opto/block.cpp:783-941 | fixup_flow preserves meaning: from any block and for any outcomes, the final list visits the blocks that the graph visits, in the same order, with only inserted gotos in between |
| `FixupFlow.PhaseCFG.InsertGotoAt` | stack_allocation/webrev/src/hotspot/share/opto/block.cpp:504-543 | The new block is spliced between a block and its j-th successor, in list and graph |
| `FixupFlow.PhaseCFG.MoveToNext` | stack_allocation/webrev/src/hotspot/share/opto/block.cpp:611-642 | A block is moved exactly if it lies behind position i and the block before it does not fall into it conditionally; then it follows position i, and otherwise the list is as it was |
| `FixupFlow.PhaseCFG.PlaceSuccessor` | stack_allocation/webrev/src/hotspot/share/opto/block.cpp:876-899 | Without frequency based layout, when neither target follows, the likelier target is moved up if it can be, else the other one if it can be, and else nothing moves |
| `FixupFlow.PhaseCFG.FixIf` | stack_allocation/webrev/src/hotspot/share/opto/block.cpp:853-935 | A conditional branch ends up branching to its first successor and falling into the second, with targets flipped or the test negated as needed; a goto is added exactly if neither target follows or can be moved up |
| `FixupFlow.PhaseCFG.FixNoFlip` | stack_allocation/webrev/src/hotspot/share/opto/block.cpp:818-844 | A branch that cannot be flipped falls into the target of projection 0, through a goto if that block does not follow |
| `FixupFlow.PhaseCFG.SetTrapSense` | stack_allocation/webrev/src/hotspot/share/opto/block.cpp:734-768 | A trap based check has the trapping side first, with the test negated exactly if the other side was the unlikely one |
| `FixupFlow.PhaseCFG.FixTrap` | stack_allocation/webrev/src/hotspot/share/opto/block.cpp:726-780 | A trap based check traps to its first successor and falls into the second |
| `FixupFlow.PhaseCFG.FallIntoSecond` | stack_allocation/webrev/src/hotspot/share/opto/block.cpp:770-780 | The target to fall into is moved up if it can be, and reached by a goto exactly if it neither follows nor can be moved |
| `FixupFlow.PhaseCFG.FixBlock` | stack_allocation/webrev/src/hotspot/share/opto/block.cpp:783-941 | One iteration does what the kind of the block asks for and nothing else |
| `FixupFlow.PhaseCFG.FixupFlow` | stack_allocation/webrev/src/hotspot/share/opto/block.cpp:783-941 | The loop ends although the list grows, each iteration is a step of the modelled kind, and every block is labelled with its position |
| `EmptyBlocks.BlockCleaner.MoveToEnd` | stack_allocation/webrev/src/hotspot/share/opto/block.cpp:645-659 | The block goes to the end of the list; an empty one loses its goto and becomes a connector |
| `EmptyBlocks.BlockCleaner.MoveUncommon` | stack_allocation/webrev/src/hotspot/share/opto/block.cpp:678-711 | The uncommon blocks, each no-flip branch with the block behind it, end up behind all others, both parts in their order; under frequency based layout the list stays as it is |
| `EmptyBlocks.FirstMoves` | stack_allocation/webrev/src/hotspot/share/opto/block.cpp:699-709 | Moving one uncommon block, and what must follow it, takes the parting of the list one step on, also when there is nothing left to follow it |
| `EmptyBlocks.BlockCleaner.RemoveEmptyBlocks` | stack_allocation/webrev/src/hotspot/share/opto/block.cpp:676-724 | The connectors are exactly the empty blocks and form the end of the list, root first; both parts keep the order that moving the uncommon blocks left, which under frequency based layout is the original one |
| `EmptyBlocks.SortedIsOrderly` | stack_allocation/webrev/src/hotspot/share/opto/block.cpp:676-724 | From blocks numbered in list order, the result has the numbering that the block layout relies on |
| `EmptyBlocks.NextWithout` | stack_allocation/webrev/src/hotspot/share/opto/block.cpp:645-659 | Where control goes next with the empty blocks as blocks, and with them as connectors, agree |
| `EmptyBlocks.EmptyBlocksDontMatter` | stack_allocation/webrev/src/hotspot/share/opto/block.cpp:676-724 | For every start and all outcomes, the graph with connectors visits the same non-empty blocks in the same order |
| `UnionFind.RootIsLeast` | stack_allocation/webrev/src/hotspot/share/opto/block.cpp:1295-1311 | A representative belongs to its class and is its least member |
| `UnionFind.CompressKeeps` | stack_allocation/webrev/src/hotspot/share/opto/block.cpp:1303-1310 | Path compression changes no representative |
| `UnionFind.LinkMerges` | stack_allocation/webrev/src/hotspot/share/opto/block.cpp:1328-1337 | Linking one representative to a smaller one merges those two classes and no others |
| `UnionFind.UnionFind.Extend` | stack_allocation/webrev/src/hotspot/share/opto/block.cpp:1275-1285 | The table covers the index afterwards: old links kept, new ones zero, the given one set |
| `UnionFind.UnionFind.Reset` | stack_allocation/webrev/src/hotspot/share/opto/block.cpp:1287-1292 | Every index below max is in bounds and its own representative |
| `UnionFind.UnionFind.FindCompress` | stack_allocation/webrev/src/hotspot/share/opto/block.cpp:1295-1311 | Returns the representative, points exactly the indices on the way to it straight at it, and leaves the partition as it was |
| `UnionFind.UnionFind.FindConst` | stack_allocation/webrev/src/hotspot/share/opto/block.cpp:1314-1325 | The same answer as with compression, changing nothing; indices off the end stand for themselves |
| `UnionFind.UnionFind.Union` | stack_allocation/webrev/src/hotspot/share/opto/block.cpp:1328-1337 | Merges exactly the two classes, under the smaller representative |
| `Traces.UniqueTrace` | stack_allocation/webrev/src/hotspot/share/opto/block.cpp:1417-1477 | Only the trace at a block's representative contains the block, and its id is that representative |
| `Traces.AppendAgrees` | stack_allocation/webrev/src/hotspot/share/opto/block.cpp:1444-1449 | Appending a block, linking it and clearing its entry keep the trace table and the union-find in agreement |
| `Traces.JoinAgrees` | stack_allocation/webrev/src/hotspot/share/opto/block.cpp:1480-1502 | Joining two traces with union_traces keeps them in agreement, whichever id is lower |
| `Traces.RotateAgrees` | stack_allocation/webrev/src/hotspot/share/opto/block.cpp:1701-1724 | Rotating a trace keeps them in agreement |
| `BlockLayout.LayoutJoin` | stack_allocation/webrev/src/hotspot/share/opto/block.cpp:1480-1502 | A join also keeps the root block at the head of its trace and the connectors in a trace of their own |
| `FallThroughs.AppendJoinsNoMore` | stack_allocation/webrev/src/hotspot/share/opto/block.cpp:1505-1545 | Appending one trace to another makes no edge newly able to join two traces at their ends |
| `FallThroughs.OnlyFrom` | stack_allocation/webrev/src/hotspot/share/opto/block.cpp:1431-1452 | A block that find_edges appends to a chain is entered from its predecessor there alone, connectors skipped |
| `FallThroughs.TargetStarts` | stack_allocation/webrev/src/hotspot/share/opto/block.cpp:1417-1477 | When all traces have been found, a fall-through edge that leaves the end of a trace leads to the first block of one |
| `FallThroughs.InsertionJoinsNoMore` | stack_allocation/webrev/src/hotspot/share/opto/block.cpp:1589-1608 | Nor does putting one trace inside another |
| `BlockLayout.FlatIsFinal` | stack_allocation/webrev/src/hotspot/share/opto/block.cpp:1623-1652 | Any order of the traces with the root's first and the connectors' last makes a list of all blocks, each once, root first, connectors last |
| `BlockLayout.PhaseBlockLayout.ExtendChain` | stack_allocation/webrev/src/hotspot/share/opto/block.cpp:1429-1452 | Chain blocks are appended with table and partition in agreement, until the count is not one, the first slot cannot be fallen through, or the block behind it is entered from elsewhere; it fails only where the block that must come next does not |
| `BlockLayout.PhaseBlockLayout.AddEdges` | stack_allocation/webrev/src/hotspot/share/opto/block.cpp:1455-1468 | A trace whose fall-through count is not zero gets one open edge for each slot its last block can fall through, to the non-connector behind it, and otherwise none |
| `FallThroughs.FallEdgesLead` | stack_allocation/webrev/src/hotspot/share/opto/block.cpp:1458-1467 | These are exactly the open edges that a fall-through of the block takes |
| `BlockLayout.PhaseBlockLayout.FindEdges` | stack_allocation/webrev/src/hotspot/share/opto/block.cpp:1417-1477 | All blocks are in traces that agree with the partition and are chains of blocks entered once; each recorded edge is a fall-through out of the last block of its trace, and touches neither connectors nor, as a target, the root |
| `BlockLayout.PhaseBlockLayout.SortEdges` | stack_allocation/webrev/src/hotspot/share/opto/block.cpp:1506-1507 | The same edges, in the order given |
| `BlockLayout.PhaseBlockLayout.TraceOf` | stack_allocation/webrev/src/hotspot/share/opto/block.cpp:1525-1526 | Looking up a trace compresses paths but changes neither partition nor table, and finds the trace that contains the block |
| `BlockLayout.PhaseBlockLayout.UnionTraces` | stack_allocation/webrev/src/hotspot/share/opto/block.cpp:1480-1502 | The updated trace ends up at the lower id, the higher entry is cleared, and the two classes are merged |
| `BlockLayout.PhaseBlockLayout.Backedge` | stack_allocation/webrev/src/hotspot/share/opto/block.cpp:1701-1754 | The trace is rotated exactly if loops are to be rotated, it starts with the target, does not end in a two-way branch and has one; it then ends in its last two-way branch, and otherwise nothing changes |
| `BlockLayout.PhaseBlockLayout.GrowAlong` | stack_allocation/webrev/src/hotspot/share/opto/block.cpp:1509-1543 | An open edge is left alone only if it is not eligible or does not lead from the end of one trace to the start of another; else it is closed |
| `BlockLayout.PhaseBlockLayout.GrowTraces` | stack_allocation/webrev/src/hotspot/share/opto/block.cpp:1505-1545 | The loop ends despite being set back after rotations, and leaves no open eligible edge that leads from the end of one trace to the start of another, the first edge included although it is never looked at again |
| `BlockLayout.PhaseBlockLayout.MergeAtEnd` | stack_allocation/webrev/src/hotspot/share/opto/block.cpp:1571-1608 | A merged edge leaves the end of a trace or enters the start of one, never both, as the source asserts; an eligible edge that does neither is left alone |
| `BlockLayout.PhaseBlockLayout.InsertAfter` | stack_allocation/webrev/src/hotspot/share/opto/block.cpp:1589-1601 | The target's trace is put directly behind the source block |
| `BlockLayout.PhaseBlockLayout.InsertBefore` | stack_allocation/webrev/src/hotspot/share/opto/block.cpp:1602-1608 | The source's trace is put directly before the target block, unless it is the root's trace |
| `BlockLayout.PhaseBlockLayout.AppendLoosely` | stack_allocation/webrev/src/hotspot/share/opto/block.cpp:1609-1617 | The target's trace is appended unless it is the root's trace |
| `BlockLayout.PhaseBlockLayout.MergeTraces` | stack_allocation/webrev/src/hotspot/share/opto/block.cpp:1549-1619 | Merging keeps traces and partition in agreement, the root in front and the connectors apart. The fall-through pass makes no edge able to join two traces at their ends, and leaves no frequent eligible edge at the start of a trace or at the end of one other than the root's; the other pass leaves open only edges into the root's trace |
| `BlockLayout.PhaseBlockLayout.SortTraces` | stack_allocation/webrev/src/hotspot/share/opto/block.cpp:1390-1412 | A permutation that keeps the first trace first, puts the connectors' trace last and the others in the order of their frequencies |
| `BlockLayout.PhaseBlockLayout.FixupBlocks` | stack_allocation/webrev/src/hotspot/share/opto/block.cpp:1756-1791 | Each block of the trace is listed once, flipped at most, and a two-way block never has its fall-through first |
| `BlockLayout.PhaseBlockLayout.ReorderTraces` | stack_allocation/webrev/src/hotspot/share/opto/block.cpp:1623-1652 | The new list holds each block exactly once, with the root first and the connectors last |
| `BlockLayout.PhaseBlockLayout.LayOut` | stack_allocation/webrev/src/hotspot/share/opto/block.cpp:1655-1696 | The whole phase: a permutation, root first, connectors last, blocks unchanged up to flipped branches; it succeeds whenever single-entry successors follow in the list |
| `BlockLayout.LayoutThenFixup` | stack_allocation/webrev/src/hotspot/share/opto/block.cpp:1655-1696 | Layout followed by fixup_flow: the emitted list visits the same blocks in the same order as the graph given to the layout |
| `Emission.EmissionKeepsRuns` | stack_allocation/webrev/src/hotspot/share/opto/compile.cpp:2635-2644 | Removing empty blocks, layout and fixup_flow together: from any block that is not empty and for any outcomes, the emitted list visits the non-empty blocks that the original graph visits, in its order |
| `Emission.Emit` | stack_allocation/webrev/src/hotspot/share/opto/compile.cpp:2635-2644 | The phases in a row, with and without frequency based layout, emit a list that runs like the original graph; they always succeed without the layout |
| `TraceOrder.FlatIsPermutation` | stack_allocation/webrev/src/hotspot/share/opto/block.cpp:1629-1651 | The traces of the table, in any order, contain every block exactly once |
| `TraceOrder.FlatSuffix` | stack_allocation/webrev/src/hotspot/share/opto/block.cpp:1390-1400 | With no other trace behind a trace of connectors, connectors are a suffix of the list |
| `TraceOrder.FlippedRuns` | stack_allocation/webrev/src/hotspot/share/opto/block.cpp:1774-1786 | Flipping targets together with projections changes no execution of the graph |
| `TraceOrder.ReorderedInput` | stack_allocation/webrev/src/hotspot/share/opto/block.cpp:1623-1652 | A reordered and flipped graph is again a valid input of fixup_flow |
| `DebugInfo.WriteMarks` | stack_allocation/webrev/src/hotspot/share/code/debugInfo.cpp:170-185 | Writing marks each object once, and the objects written are closed under references |
| `DebugInfo.IdRoundTrip` | stack_allocation/webrev/src/hotspot/share/code/debugInfo.cpp:96-107 | A repeated object is written as its id and read back as the object already in the pool |
| `DebugInfo.RoundTrip` | stack_allocation/webrev/src/hotspot/share/code/debugInfo.cpp:73-235 | At every stream position, with writer marks and reader pool in lockstep, reading what was written yields the value, exactly the rest of the stream, and again lockstep |
| `DebugInfo.RoundTripGraph` | stack_allocation/webrev/src/hotspot/share/code/debugInfo.cpp:73-235 | Any finite object graph, shared or cyclic, of plain, autobox and stack objects is rebuilt isomorphically |
| `DebugInfo.MonitorRoundTrip` | stack_allocation/webrev/src/hotspot/share/code/debugInfo.cpp:336-346 | Monitor values come back with their owner, location and eliminated flag |
| `DebugInfo.DebugInfoWriteStream.WriteOn` | stack_allocation/webrev/src/hotspot/share/code/debugInfo.cpp:170-235 | The stream writer produces the specified tokens and marks, also on cycles |
| `DebugInfo.DebugInfoReadStream.GetCachedObject` | stack_allocation/webrev/src/hotspot/share/code/debugInfo.cpp:96-107 | Finds the pool entry with the id, or none if there is none |
| `DebugInfo.DebugInfoReadStream.ReadValue` | stack_allocation/webrev/src/hotspot/share/code/debugInfo.cpp:111-127 | The stream reader computes the specified value, rest and pool, and rejects malformed streams |
| `DebugInfo.DebugInfoReadStream.ReadObjectValue` | stack_allocation/webrev/src/hotspot/share/code/debugInfo.cpp:73-94 | A new object is in the pool before its fields are read, so that they can refer to it |
| `DebugInfo.DebugInfoReadStream.ReadFieldValues` | stack_allocation/webrev/src/hotspot/share/code/debugInfo.cpp:160-168 | Fields are appended in order while nested objects join the pool |
| `DerivedPointers.FreshPair` | stack_allocation/webrev/src/hotspot/share/compiler/oopMap.cpp:248-289 | Earlier pairs of a frame change nothing about what is decided for a later one |
| `DerivedPointers.FatedNext` | stack_allocation/webrev/src/hotspot/share/compiler/oopMap.cpp:248-289 | What is decided for each pair of each frame is what the memory before the collection says |
| `DerivedPointers.DerivedPointerTable.Add` | stack_allocation/webrev/src/hotspot/share/compiler/oopMap.cpp:793-816 | An active table records the offset and makes the derived slot point at its base slot; an inactive one does nothing |
| `DerivedPointers.DerivedPointerTable.ScanDerived` | stack_allocation/webrev/src/hotspot/share/compiler/oopMap.cpp:248-289 | Scanning a frame decides each derived slot by its base: null, narrow base and in-frame bases leave it alone |
| `DerivedPointers.DerivedPointerTable.UpdatePointers` | stack_allocation/webrev/src/hotspot/share/compiler/oopMap.cpp:819-845 | Every recorded slot becomes its base's new value plus its old offset, nothing else changes, and the table ends empty and inactive |
| `DerivedPointers.DerivedPointerTable.Collect` | stack_allocation/webrev/src/hotspot/share/compiler/oopMap.cpp:775-845 | Over any frames and any relocations, a derived pointer is as far from its base afterwards as before if the base holds a heap reference, and unchanged if the base is missing, null, the narrow base or in the frame |
| `StackWalk.PartlyLogged` | stack_allocation/webrev/src/hotspot/share/compiler/oopMap.cpp:396-403 | Giving one out-of-frame field to the closure logs it and no other slot, which no other object shares |
| `StackWalk.PartlyWalked` | stack_allocation/webrev/src/hotspot/share/compiler/oopMap.cpp:396-403 | Following a field into a stack object adds exactly what is reachable from there |
| `StackWalk.RootedWalked` | stack_allocation/webrev/src/hotspot/share/compiler/oopMap.cpp:302-344 | An entry that leads to a stack object extends the walked objects to the least closed set |
| `StackWalk.FrameWalker.StackOopDo` | stack_allocation/webrev/src/hotspot/share/compiler/oopMap.cpp:418-428 | An object is entered once, type arrays never; everything reachable from it is entered and its out-of-frame fields are given to the closure once, although the closure rewrites slots |
| `StackWalk.FrameWalker.DoField` | stack_allocation/webrev/src/hotspot/share/compiler/oopMap.cpp:396-403 | A field is followed if it points into the frame and given to the closure otherwise |
| `StackWalk.FrameWalker.AllDo` | stack_allocation/webrev/src/hotspot/share/compiler/oopMap.cpp:291-379 | The closure is given, exactly once each, every narrow oop slot, every oop slot with a value that is neither null, the narrow base nor in the frame, and the out-of-frame fields of exactly the stack objects reachable from the map; all other memory is unchanged |
| `OopMapValues.PackingIsExact` | stack_allocation/webrev/src/hotspot/share/compiler/oopMap.hpp:83-131 | The type always survives 16-bit packing, the register exactly if it is legal, the content register exactly if it fits a short |
| `OopMapValues.OopMap.SetXxx` | stack_allocation/webrev/src/hotspot/share/compiler/oopMap.cpp:134-143 | An entry is appended to the written data and counted |
| `OopMapValues.OopMap.SetDerivedOop` | stack_allocation/webrev/src/hotspot/share/compiler/oopMap.cpp:161-168 | A derived pointer in its base's own location becomes a plain oop entry |
| `OopMapValues.OopMapStream.ReadFrom` | stack_allocation/webrev/src/hotspot/share/compiler/oopMap.hpp:111-116 | Reading yields the entry that was written; a type without content keeps the previous content register |
| `OopMapValues.OopMapStream.FindNext` | stack_allocation/webrev/src/hotspot/share/compiler/oopMap.cpp:66-73 | The stream advances by one entry until the count is used up |
| `OopMapValues.OopMapStream.IsDone` | stack_allocation/webrev/src/hotspot/share/compiler/oopMap.hpp:331-331 | Done exactly when no entry is current after looking for one |
| `OopMapValues.ReadEntries` | stack_allocation/webrev/src/hotspot/share/compiler/oopMap.hpp:331-333 | Iterating returns all entries in order |
| `ImmutableOopMaps.PlanNew` | stack_allocation/webrev/src/hotspot/share/compiler/oopMap.cpp:653-662 | A new map gets an aligned range behind all others |
| `ImmutableOopMaps.PlanShared` | stack_allocation/webrev/src/hotspot/share/compiler/oopMap.cpp:640-652 | A shared map refers to a stored map with equal count and data |
| `ImmutableOopMaps.OwnApart` | stack_allocation/webrev/src/hotspot/share/compiler/oopMap.cpp:628-669 | Different maps never own the same cell |
| `ImmutableOopMaps.FilledStays` | stack_allocation/webrev/src/hotspot/share/compiler/oopMap.cpp:684-701 | Storing a later map leaves earlier ones readable |
| `ImmutableOopMaps.FramedStays` | stack_allocation/webrev/src/hotspot/share/compiler/oopMap.cpp:704-716 | Header and guard bytes are never overwritten |
| `ImmutableOopMaps.FindMapAtOffset` | stack_allocation/webrev/src/hotspot/share/compiler/oopMap.cpp:583-598 | With increasing pc offsets, looking up a map's pc finds its count and data, even if shared; failure means all offsets are smaller |
| `ImmutableOopMaps.EntriesAt` | stack_allocation/webrev/src/hotspot/share/compiler/oopMap.cpp:583-602 | Reading the map found at a pc returns the entries once put into it, in order |
| `ImmutableOopMaps.ImmutableOopMapBuilder.Place` | stack_allocation/webrev/src/hotspot/share/compiler/oopMap.cpp:636-663 | One sizing step keeps ranges aligned, ordered and disjoint and every map at home in an equal one; an empty map shares the place of the first empty one, and a map equal to the last one before it that is not empty shares the place of that |
| `ImmutableOopMaps.ImmutableOopMapBuilder.HeapSize` | stack_allocation/webrev/src/hotspot/share/compiler/oopMap.cpp:628-669 | The required size is header, pairs, the ranges of the maps that share no other's place, and the guard |
| `ImmutableOopMaps.ImmutableOopMapBuilder.GenerateInto` | stack_allocation/webrev/src/hotspot/share/compiler/oopMap.cpp:719-728 | Filling a buffer of the required size stores every map and leaves header and guard intact |
| `ImmutableOopMaps.ImmutableOopMapBuilder.Build` | stack_allocation/webrev/src/hotspot/share/compiler/oopMap.cpp:730-736 | Sizing and filling agree: the built buffer holds every map of the set |
| `Liveness.InMonotone` | stack_allocation/webrev/src/hotspot/share/opto/buildOopMap.cpp:445-516 | The transfer of a block is monotone in what is live at its end |
| `Liveness.LiveAtMeans` | stack_allocation/webrev/src/hotspot/share/opto/buildOopMap.cpp:446-471 | Before an instruction a register is live exactly if it is used from there on before anything defines it, or is live at the end and nothing defines it |
| `Liveness.SnapshotsAreNeeded` | stack_allocation/webrev/src/hotspot/share/opto/buildOopMap.cpp:498-511 | A snapshot has exactly the registers with a path, through processed blocks, to a use with no definition on the way |
| `Liveness.RisingStep` | stack_allocation/webrev/src/hotspot/share/opto/buildOopMap.cpp:429-534 | Processing a block only adds live registers and stays below every solution |
| `Liveness.AllStableIsFixpoint` | stack_allocation/webrev/src/hotspot/share/opto/buildOopMap.cpp:405-565 | If every block is stable the result solves the dataflow equations |
| `Liveness.LivenessPass.ProcessBlock` | stack_allocation/webrev/src/hotspot/share/opto/buildOopMap.cpp:429-534 | A processed block satisfies its equation and its safepoint snapshots match it; changed blocks get their predecessors pending |
| `Liveness.LivenessPass.Drain` | stack_allocation/webrev/src/hotspot/share/opto/buildOopMap.cpp:428-535 | When the worklist is empty every block processed satisfies its equation |
| `Liveness.LivenessPass.DoLiveness` | stack_allocation/webrev/src/hotspot/share/opto/buildOopMap.cpp:405-565 | The retry loop ends with every safepoint recorded; each snapshot of a processed block has exactly the registers with a definition-free path through processed blocks to a use; the bits are the least solution once all blocks were processed |
| `OopFlows.PredecessorOwns` | stack_allocation/webrev/src/hotspot/share/opto/buildOopMap.cpp:628-653 | Whenever a finished predecessor's structure is consulted it still belongs to that predecessor and describes its end |
| `OopFlows.OwnsStays` | stack_allocation/webrev/src/hotspot/share/opto/buildOopMap.cpp:655-678 | Handing a structure on, or copying it, takes it from no block that can still be consulted |
| `OopFlows.FinishedOk` | stack_allocation/webrev/src/hotspot/share/opto/buildOopMap.cpp:670-679 | Flowing over a block keeps the invariant: the block was entered with what reached the end of some predecessor, and its safepoints have their maps |
| `ReachingDefs.DefsMean` | stack_allocation/webrev/src/hotspot/share/opto/buildOopMap.cpp:125-132 | A register's definition is the last node that names it, if there is one |
| `ReachingDefs.CalleesMean` | stack_allocation/webrev/src/hotspot/share/opto/buildOopMap.cpp:134-163 | A register has callee-saved value c exactly if a start projection found it in c and copies moved it there, with nothing defining its register on the way |
| `ReachingDefs.CarriedIsHeld` | stack_allocation/webrev/src/hotspot/share/opto/buildOopMap.cpp:134-163 | A register to which the value of c was moved holds what c held on entry, when copies copy and other nodes overwrite |
| `ReachingDefs.ReachSays` | stack_allocation/webrev/src/hotspot/share/opto/buildOopMap.cpp:111-165 | What is computed for a run of nodes says both for every register |
| `OopFlows.OopFlowPass.ComputeReach` | stack_allocation/webrev/src/hotspot/share/opto/buildOopMap.cpp:111-165 | Definitions and callee-saved values are pushed node by node, and each safepoint gets a map from what reaches it |
| `OopFlows.OopFlowPass.FindPred` | stack_allocation/webrev/src/hotspot/share/opto/buildOopMap.cpp:628-653 | Finds a finished predecessor, and permits carrying exactly if some finished predecessor has no other successor left |
| `OopFlows.OopFlowPass.TakeFlow` | stack_allocation/webrev/src/hotspot/share/opto/buildOopMap.cpp:655-668 | The structure used describes the predecessor's end, whether carried or cloned |
| `OopFlows.OopFlowPass.BuildOopMaps` | stack_allocation/webrev/src/hotspot/share/opto/buildOopMap.cpp:568-686 | Exactly the blocks reachable from the entry, root aside, are flowed over, each once; each safepoint's map has the last definitions and the callee-saved values moved about along some path from the entry to it |
| `SafepointMaps.FindPair` | stack_allocation/webrev/src/hotspot/share/opto/buildOopMap.cpp:277-301 | Finds the first pair with that derived input, else the first one that is a copy of one node with it, and fails only if there is none |
| `SafepointMaps.RecordsAppend` | stack_allocation/webrev/src/hotspot/share/opto/buildOopMap.cpp:221-370 | A register's record never collides with a recorded location |
| `SafepointMaps.UptoBase` | stack_allocation/webrev/src/hotspot/share/opto/buildOopMap.cpp:306-320 | A base that becomes live is recorded at once if its turn is past, and otherwise at its turn |
| `SafepointMaps.RecordDerived` | stack_allocation/webrev/src/hotspot/share/opto/buildOopMap.cpp:276-324 | A derived pointer is recorded with its base, whose live bit is set |
| `SafepointMaps.BuildOopMap` | stack_allocation/webrev/src/hotspot/share/opto/buildOopMap.cpp:210-399 | The map has every live oop as an oop, narrow oop as a narrow oop, derived pointer with a base that is recorded as an oop, and callee-saved value, arguments and high halves aside; nothing that does not fit a live register, no location twice, and a bailout exactly for illegal names |
| `EscapeStates.PropagatedIsJoin` | stack_allocation/webrev/src/hotspot/share/opto/escape.cpp:1616-1649 | The branches compute the least state above the target's to which the edge carries: the fields state, the escape state unless to an arraycopy, and from an object to an oop field the fields state as escape state |
| `EscapeStates.StepStaysBelow` | stack_allocation/webrev/src/hotspot/share/opto/escape.cpp:1616-1649 | A propagation step stays below every solution |
| `EscapeStates.RoomShrinks` | stack_allocation/webrev/src/hotspot/share/opto/escape.cpp:1603-1651 | Raising a state uses up room that is bounded |
| `EscapeStates.ConnectionGraph.Propagate` | stack_allocation/webrev/src/hotspot/share/opto/escape.cpp:1616-1649 | The edge is satisfied afterwards; the target takes the joined state and is pushed exactly if that differs from its own, the null object being pushed but never changed |
| `EscapeStates.ConnectionGraph.ProcessNode` | stack_allocation/webrev/src/hotspot/share/opto/escape.cpp:1604-1650 | All edges of the node are satisfied, and an escaping oop field gets an unknown value |
| `EscapeStates.ConnectionGraph.FindNonEscapedObjects` | stack_allocation/webrev/src/hotspot/share/opto/escape.cpp:1589-1664 | Ends with the least valid assignment above the initial one in which every edge carries its source's states along; the objects kept are exactly those that do not escape globally, without duplicates |
| `StackAllocation.StackAllocationAnalysis.SelectEligible` | stack_allocation/webrev/src/hotspot/share/opto/escape.cpp:267-288 | Exactly the candidates found eligible are marked |
| `StackAllocation.StackAllocationAnalysis.CheckContainers` | stack_allocation/webrev/src/hotspot/share/opto/escape.cpp:570-614 | An allocation is struck out exactly if some other container is neither null, scalar replaceable nor marked |
| `StackAllocation.StackAllocationAnalysis.VerifyChains` | stack_allocation/webrev/src/hotspot/share/opto/escape.cpp:556-618 | A round strikes out one allocation that is not safe among the marked ones, or finds all safe and leaves exact referenced flags |
| `StackAllocation.StackAllocationAnalysis.KeepSafe` | stack_allocation/webrev/src/hotspot/share/opto/escape.cpp:265-303 | The survivors are the largest safe subset of the eligible allocations, and the referenced flag marks exactly the contained survivors |
| `StackAllocation.HolderEscapesNoFurther` | stack_allocation/webrev/src/hotspot/share/opto/escape.cpp:243-303 | With closed escape states an object that holds one that does not escape does not escape either |
| `StackAllocation.StackAllocationAnalysis.Analyse` | stack_allocation/webrev/src/hotspot/share/opto/escape.cpp:265-303 | On a finished graph the survivors are the largest safe subset of the eligible candidates: every other object that contains one is null, another survivor or scalar replaceable, and none escapes at all |
| `PointerCompare.PointsTo` | stack_allocation/webrev/src/hotspot/share/opto/escape.cpp:2523-2533 | True exactly if the object is among the node's targets |
| `PointerCompare.Meet` | stack_allocation/webrev/src/hotspot/share/opto/escape.cpp:2536-2554 | True exactly if the nodes are the same or refer to a common node; false only if no object is a target of both |
| `PointerCompare.CompareUnique` | stack_allocation/webrev/src/hotspot/share/opto/escape.cpp:2255-2291 | Comparing two known objects answers "not equal" exactly for a fresh object that is not among the other's targets and for constants of two types, and "equal" exactly for one object that does not escape and for constants of one type; both are right whatever the unknown object is |
| `PointerCompare.CompareSets` | stack_allocation/webrev/src/hotspot/share/opto/escape.cpp:2292-2321 | Comparing target sets answers "not equal" exactly if nothing is shared and one side has only allocations and calls that do not escape, and then no common value is possible |
| `PointerCompare.OptimizePtrCompare` | stack_allocation/webrev/src/hotspot/share/opto/escape.cpp:2244-2322 | In every concretisation of the points-to sets, with any escaping object free to share values with the unknown one, an answer of "not equal" implies different pointers; when it is given is stated exactly |
| `PointsTo.WithEdgeOk` | stack_allocation/webrev/src/hotspot/share/opto/escape.hpp:466-484 | A new edge keeps edge lists, use lists and the unknown flag mutually inverse |
| `PointsTo.WithBaseOk` | stack_allocation/webrev/src/hotspot/share/opto/escape.hpp:486-509 | A new base keeps base lists, base uses, object edges and the flag mutually inverse |
| `PointsTo.PathsAreDirect` | stack_allocation/webrev/src/hotspot/share/opto/escape.cpp:1667-1734 | In a completed graph a node that reaches an object along deferred edges points at it directly |
| `PointsTo.SameFieldAliases` | stack_allocation/webrev/src/hotspot/share/opto/escape.cpp:1776-1802 | The test on offsets finds exactly the field nodes that may stand for one field, an unknown offset standing for every field |
| `PointsTo.FieldsAgree` | stack_allocation/webrev/src/hotspot/share/opto/escape.cpp:1737-1764 | In a completed graph, field nodes of one base that may stand for one field hold the same objects |
| `PointsTo.PropagatedIsClosed` | stack_allocation/webrev/src/hotspot/share/opto/escape.cpp:1667-1734 | If all that must follow from the pointers to an object is there, nothing is left to propagate for it |
| `PointsTo.FieldUsesDue` | stack_allocation/webrev/src/hotspot/share/opto/escape.cpp:1737-1764 | Everything put on the worklist for a field is forced by any solution |
| `PointsToCompletion.ConnectionGraph.AddEdge` | stack_allocation/webrev/src/hotspot/share/opto/escape.hpp:466-484 | Reports exactly whether the edge is new, and adds it with its use |
| `PointsToCompletion.ConnectionGraph.AddBase` | stack_allocation/webrev/src/hotspot/share/opto/escape.hpp:486-509 | Reports exactly whether the base is new, and adds it with its counterpart |
| `PointsToCompletion.ConnectionGraph.AddFieldUsesToWorklist` | stack_allocation/webrev/src/hotspot/share/opto/escape.cpp:1737-1764 | The worklist gains exactly the field's uses and the fields that may be the same by a shared base |
| `PointsToCompletion.ConnectionGraph.DrainWorklist` | stack_allocation/webrev/src/hotspot/share/opto/escape.cpp:1683-1730 | The growing worklist is processed to its end, no edge is lost, every entry's reference is there, and nothing beyond any solution is added |
| `PointsToCompletion.ConnectionGraph.AddJavaObjectEdges` | stack_allocation/webrev/src/hotspot/share/opto/escape.cpp:1667-1734 | If it adds nothing the graph is unchanged and, when populated, closed for the object |
| `PointsToCompletion.ConnectionGraph.FindFieldValue` | stack_allocation/webrev/src/hotspot/share/opto/escape.cpp:1809-1828 | A field without an allocation among its bases is unknown afterwards; it returns 1 exactly if it made it so, and otherwise changes nothing |
| `PointsToCompletion.ConnectionGraph.CompleteGraph` | stack_allocation/webrev/src/hotspot/share/opto/escape.cpp:1445-1553 | Without a limit or bailout the graph is closed for every object, field nodes of one base that may stand for one field hold the same objects, and no oop field is left without a value or an allocation as base; whatever closed facts the graph started within, it gains no others about known objects |
| `PointsToCompletion.WithUnknownCloses` | stack_allocation/webrev/src/hotspot/share/opto/escape.cpp:1667-1734 | Letting anything be unknown forces nothing about known objects: closed facts stay closed when every pointer may be unknown |
| `LogicCone.EvalMacroLogicOp` | stack_allocation/webrev/src/hotspot/share/opto/compile.cpp:2380-2393 | Row by row, the result is the function looked up at the operands' bits |
| `LogicCone.InputColumns` | stack_allocation/webrev/src/hotspot/share/opto/compile.cpp:2423-2430 | The three constants are the columns of the inputs |
| `LogicCone.EvalNode` | stack_allocation/webrev/src/hotspot/share/opto/compile.cpp:2432-2467 | The table computed for a node gives, in every lane of all vectors of any width, the node's value as a function of the inputs |
| `LogicCone.ComputeTruthTable` | stack_allocation/webrev/src/hotspot/share/opto/compile.cpp:2417-2470 | The synthesised table gives the value of the root, also if an input is itself in the partition |
| `LogicPacking.CollectUniqueInputs` | stack_allocation/webrev/src/hotspot/share/opto/compile.cpp:2290-2324 | Inputs stay unique and gain exactly the node's operands, or the node itself; the count is the number of new ones |
| `LogicPacking.GatherChild` | stack_allocation/webrev/src/hotspot/share/opto/compile.cpp:2494-2513 | The retry with one child yields a cone whose other input stays an input |
| `LogicPacking.ComputeLogicCone` | stack_allocation/webrev/src/hotspot/share/opto/compile.cpp:2472-2517 | A cone is returned exactly if one of two or three inputs exists, with or without the retry, and it is evaluable and ends in the root |
| `LogicRewrite.MacroValue` | stack_allocation/webrev/src/hotspot/share/opto/compile.cpp:2338-2352 | The MacroLogicV node over the reversed inputs, the second duplicated if there are two, computes what the root computed |
| `LogicRewrite.PackedKeeps` | stack_allocation/webrev/src/hotspot/share/opto/compile.cpp:2520-2542 | Replacing a root keeps the value of every other node of the graph |
| `LogicRewrite.PackStep` | stack_allocation/webrev/src/hotspot/share/opto/compile.cpp:2537-2541 | One replacement removes only its root |
| `LogicRewrite.RewrittenTwice` | stack_allocation/webrev/src/hotspot/share/opto/compile.cpp:2520-2542 | Value preservation composes over any number of replacements |
| `LogicRewrite.OutsideSurvives` | stack_allocation/webrev/src/hotspot/share/opto/compile.cpp:2544-2560 | Operations that are not bitwise survive all packing with their values |
| `LogicRewrite.LogicOptimizer.Pack` | stack_allocation/webrev/src/hotspot/share/opto/compile.cpp:2537-2541 | The root is replaced by a new MacroLogicV node of equal value in every evaluation |
| `LogicRewrite.LogicOptimizer.ProcessLogicConeRoot` | stack_allocation/webrev/src/hotspot/share/opto/compile.cpp:2520-2542 | The depth-first walk ends although the graph changes under it, keeps all values, and leaves no packable root behind |
| `LogicRewrite.LogicOptimizer.OptimizeLogicCones` | stack_allocation/webrev/src/hotspot/share/opto/compile.cpp:2544-2560 | The whole pass keeps the value of every node that is not a bitwise operation, and processes every supported root, which leaves it replaced or impossible to pack |
| `AliasTypes.SharedIndex` | stack_allocation/webrev/src/hotspot/share/opto/compile.cpp:1563-1577 | Two types have one index exactly if they flatten to one type |
| `AliasTypes.LookupStays` | stack_allocation/webrev/src/hotspot/share/opto/compile.cpp:1571-1577 | A new row changes no index that was assigned |
| `AliasTypes.Compile.constructor` | stack_allocation/webrev/src/hotspot/share/opto/compile.cpp:978-998 | The initial table and cache are consistent, with the preloaded answer for NULL |
| `AliasTypes.Compile.AddAliasType` | stack_allocation/webrev/src/hotspot/share/opto/compile.cpp:1571-1577 | A new row gets the next index; the general type of an instance is looked up, and added if necessary, on the way |
| `AliasTypes.Compile.FillCache` | stack_allocation/webrev/src/hotspot/share/opto/compile.cpp:1635-1646 | The type's slot gets the answer, the flattened type's too if it was free, and no other slot changes; every cached answer stays equal to the uncached one |
| `AliasTypes.Compile.FindAliasType` | stack_allocation/webrev/src/hotspot/share/opto/compile.cpp:1529-1649 | The answer is the uncached one for every state of the cache; rows never change; without leave to create nothing changes |
| `AliasTypes.Compile.HaveAliasType` | stack_allocation/webrev/src/hotspot/share/opto/compile.cpp:1665-1676 | True exactly if the uncached lookup has an answer, changing no row |

## Left out

- Printing, dumping, logging, statistics and timers: no behaviour beyond output.
- NeverBranch blocks, `postalloc_expand`, loop alignment: the first are assumed absent, the others depend on machine nodes.
- Frequencies as floating point numbers: any order of edges and traces is covered instead.
- Overflow of the 32-bit sizes in `UnionFind::extend`: sizes are unbounded integers.
- The assertion in `find_edges` that a single-entry successor is the next block: the model reports failure there instead of stopping.
- BlockLayout.PhaseBlockLayout.FindEdges: does not state which edges are recorded in all, because the count that decides it is the one of the block before; `AddEdges` states it for each trace.
- Arraycopy nodes in the completion of the connection graph: the closure property is about graphs without them; escape propagation does model them.
- `find_init_values`, `adjust_scalar_replaceable_state`, `split_unique_types`, building the connection graph from ideal nodes: they depend on IR classes outside these files.
- `find_non_escaped_objects` inside the completion loop is represented by the fields it makes unknown; its own result is proved in `EscapeStates`.
- `allocation_lifetime_overlap`: eligibility is an input set.
- Timeouts: any pass may time out, which makes the completion fail.
- The CISC-spill operands in `do_liveness`, big-endian narrow oops, the VerifyStack branch of `all_do`: platform or debug code.
- Bit vectors of live registers are sets; their packing into words is not modelled.
- The byte encoding of compressed streams: a written integer is one token or one cell.
- `DerivedPointerTableDeactivate`, `update_register_map`, the lock-free list of the derived pointer table: the list is a sequence.
- Value numbering when a MacroLogicV node is transformed: the new node is always a new node. Dead nodes stay in the modelled graph.
- Field, element and rewritability attributes of alias types: only index, type and general index are modelled.
- The internals of `flatten_alias_type` and of the type lattice: an idempotent flatten is given.
- `merge` of two oop flows: it is not called by the pass.
- That any reaching definition is good enough for a live value at a join: the model states which predecessor's definitions are used.
- SafepointMaps.BuildOopMap: assumes that the base of a live derived pointer is a zero-offset oop in an even, legal register and not a call argument, because otherwise the source records no base for it.
