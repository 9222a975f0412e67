/**
 * Empty blocks become connectors at the end of the block list (opto/block.cpp,
 * PhaseCFG::remove_empty_blocks and move_to_end), the form that block layout and
 * fixup_flow expect.
 */
module EmptyBlocks {
  import opened Lists
  import opened Wrappers
  import opened ControlFlow
  import opened FixupFlow
  import BlockLayout
  import TraceOrder

  // ----- The list -----

  function Outside(s: seq<BlockId>, e: set<BlockId>): seq<BlockId> {
    if s == [] then [] else Outside(s[..|s| - 1], e) + if s[|s| - 1] in e then [] else [s[|s| - 1]]
  }

  function Inside(s: seq<BlockId>, e: set<BlockId>): seq<BlockId> {
    if s == [] then [] else Inside(s[..|s| - 1], e) + if s[|s| - 1] in e then [s[|s| - 1]] else []
  }

  /** Position i moved to the end. */
  function ToEnd(s: seq<BlockId>, i: nat): seq<BlockId>
    requires i < |s|
  {
    s[..i] + s[i + 1..] + [s[i]]
  }

  lemma ToEndKeeps(s: seq<BlockId>, i: nat)
    requires i < |s| && NoDup(s)
    ensures NoDup(ToEnd(s, i)) && Elems(ToEnd(s, i)) == Elems(s) && |ToEnd(s, i)| == |s|
    ensures i > 0 ==> ToEnd(s, i)[0] == s[0]
  {
    var m := ToEnd(s, i);
    forall x | x in s ensures x in m {
      var p :| 0 <= p < |s| && s[p] == x;
      assert m[if p < i then p else if p == i then |s| - 1 else p - 1] == x;
    }
  }

  lemma {:induction false} Members(s: seq<BlockId>, e: set<BlockId>, x: BlockId)
    ensures x in Outside(s, e) <==> x in s && x !in e
    ensures x in Inside(s, e) <==> x in s && x in e
  {
    if s != [] {
      Members(s[..|s| - 1], e, x);
      assert s == s[..|s| - 1] + [s[|s| - 1]];
    }
  }

  /** Both parts keep the order of the list. */
  lemma {:induction false} PartsIncrease(s: seq<BlockId>, e: set<BlockId>)
    requires forall i, j :: 0 <= i < j < |s| ==> s[i] < s[j]
    ensures forall i, j :: 0 <= i < j < |Outside(s, e)| ==> Outside(s, e)[i] < Outside(s, e)[j]
    ensures forall i, j :: 0 <= i < j < |Inside(s, e)| ==> Inside(s, e)[i] < Inside(s, e)[j]
  {
    if s != [] {
      var front := s[..|s| - 1];
      PartsIncrease(front, e);
      forall i | 0 <= i < |Outside(front, e)| ensures Outside(front, e)[i] < s[|s| - 1] {
        Members(front, e, Outside(front, e)[i]);
      }
      forall i | 0 <= i < |Inside(front, e)| ensures Inside(front, e)[i] < s[|s| - 1] {
        Members(front, e, Inside(front, e)[i]);
      }
    }
  }

  lemma PartsNext(s: seq<BlockId>, e: set<BlockId>, k: nat)
    requires k < |s|
    ensures Outside(s[..k + 1], e) == Outside(s[..k], e) + if s[k] in e then [] else [s[k]]
    ensures Inside(s[..k + 1], e) == Inside(s[..k], e) + if s[k] in e then [s[k]] else []
  {
    assert s[..k + 1][..k] == s[..k];
  }

  /** The list when the first k blocks behind the root have been sorted out. */
  function Sorted(root: BlockId, tail: seq<BlockId>, e: set<BlockId>, k: nat): seq<BlockId>
    requires k <= |tail|
  {
    [root] + Outside(tail[..k], e) + tail[k..] + Inside(tail[..k], e)
  }

  lemma SortedStart(root: BlockId, tail: seq<BlockId>, e: set<BlockId>)
    ensures Sorted(root, tail, e, 0) == [root] + tail && Outside(tail[..0], e) == []
  {
  }

  lemma SortedNext(root: BlockId, tail: seq<BlockId>, e: set<BlockId>, k: nat)
    requires k < |tail|
    ensures var s, i := Sorted(root, tail, e, k), 1 + |Outside(tail[..k], e)|;
      && i < |s| && s[i] == tail[k]
      && Sorted(root, tail, e, k + 1) == if tail[k] in e then ToEnd(s, i) else s
  {
    PartsNext(tail, e, k);
    var a, x, b := [root] + Outside(tail[..k], e), tail[k], tail[k + 1..];
    assert tail[k..] == [x] + b;
    Regroup(a, x, b, Inside(tail[..k], e));
    if x !in e {
      assert [root] + (Outside(tail[..k], e) + [x]) == a + [x];
      assert Outside(tail[..k], e) + [] == Outside(tail[..k], e);
      assert Inside(tail[..k], e) + [] == Inside(tail[..k], e);
    }
  }

  /** Taking x from behind a to the end. */
  lemma Regroup(a: seq<BlockId>, x: BlockId, b: seq<BlockId>, c: seq<BlockId>)
    ensures var s := a + ([x] + b) + c;
      |a| < |s| && s[|a|] == x && ToEnd(s, |a|) == a + b + (c + [x]) && s == (a + [x]) + b + c
  {
    var s := a + ([x] + b) + c;
    assert s[..|a|] == a;
    assert s[|a| + 1..] == b + c;
  }

  // ----- Uncommon blocks -----

  /** The blocks that stay and those that move; dangling if the last one needs a successor that is not there. */
  datatype Parting = Parting(kept: seq<BlockId>, moved: seq<BlockId>, dangling: bool)

  /** An uncommon block moves, and so does the block behind an uncommon no-flip branch. */
  function Part(s: seq<BlockId>, rare: set<BlockId>, noFlip: set<BlockId>): Parting {
    if s == [] then Parting([], [], false)
    else if s[0] !in rare then var r := Part(s[1..], rare, noFlip); r.(kept := [s[0]] + r.kept)
    else if s[0] !in noFlip then var r := Part(s[1..], rare, noFlip); r.(moved := [s[0]] + r.moved)
    else if |s| == 1 then Parting([], s, true)
    else var r := Part(s[2..], rare, noFlip); r.(moved := s[..2] + r.moved)
  }

  /**
   * The list with the moved blocks behind the others; instead of what a dangling one lacks, the first of them moves
   * again.
   */
  function Parted(root: BlockId, tail: seq<BlockId>, rare: set<BlockId>, noFlip: set<BlockId>): seq<BlockId> {
    var r := Part(tail, rare, noFlip);
    [root] + r.kept + if r.dangling && r.moved != [] then r.moved[1..] + [r.moved[0]] else r.moved
  }

  /** The list while s is still to be parted: `done` stays and `gone` was moved. */
  ghost predicate PartAt(list: seq<BlockId>, root: BlockId, tail: seq<BlockId>, rare: set<BlockId>,
                         noFlip: set<BlockId>,
                         done: seq<BlockId>, s: seq<BlockId>, gone: seq<BlockId>)
  {
    var r, q := Part(tail, rare, noFlip), Part(s, rare, noFlip);
    && list == [root] + done + s + gone
    && r.kept == done + q.kept && r.moved == gone + q.moved && r.dangling == q.dangling
  }

  lemma FirstToEnd(root: BlockId, done: seq<BlockId>, s: seq<BlockId>, gone: seq<BlockId>)
    requires s != []
    ensures ([root] + done + s + gone)[1 + |done|] == s[0]
    ensures ToEnd([root] + done + s + gone, 1 + |done|) == [root] + done + s[1..] + (gone + [s[0]])
  {
    Regroup([root] + done, s[0], s[1..], gone);
    assert s == [s[0]] + s[1..];
  }

  lemma PartKeeps(list: seq<BlockId>, root: BlockId, tail: seq<BlockId>, rare: set<BlockId>, noFlip: set<BlockId>,
                  done: seq<BlockId>, s: seq<BlockId>, gone: seq<BlockId>)
    requires PartAt(list, root, tail, rare, noFlip, done, s, gone) && s != [] && s[0] !in rare
    ensures PartAt(list, root, tail, rare, noFlip, done + [s[0]], s[1..], gone)
  {
    var q := Part(s[1..], rare, noFlip);
    assert done + ([s[0]] + q.kept) == done + [s[0]] + q.kept;
    assert s == [s[0]] + s[1..];
    assert [root] + (done + [s[0]]) + s[1..] == [root] + done + ([s[0]] + s[1..]);
  }

  lemma PartMoves(list: seq<BlockId>, root: BlockId, tail: seq<BlockId>, rare: set<BlockId>, noFlip: set<BlockId>,
                  done: seq<BlockId>, s: seq<BlockId>, gone: seq<BlockId>)
    requires PartAt(list, root, tail, rare, noFlip, done, s, gone) && s != [] && s[0] in rare && s[0] !in noFlip
    ensures PartAt(ToEnd(list, 1 + |done|), root, tail, rare, noFlip, done, s[1..], gone + [s[0]])
  {
    FirstToEnd(root, done, s, gone);
    var q := Part(s[1..], rare, noFlip);
    assert gone + ([s[0]] + q.moved) == gone + [s[0]] + q.moved;
  }

  lemma PartMovesTwo(list: seq<BlockId>, root: BlockId, tail: seq<BlockId>, rare: set<BlockId>, noFlip: set<BlockId>,
                     done: seq<BlockId>, s: seq<BlockId>, gone: seq<BlockId>)
    requires PartAt(list, root, tail, rare, noFlip, done, s, gone) && |s| >= 2 && s[0] in rare && s[0] in noFlip
    ensures PartAt(ToEnd(ToEnd(list, 1 + |done|), 1 + |done|), root, tail, rare, noFlip, done, s[2..], gone + s[..2])
  {
    FirstToEnd(root, done, s, gone);
    FirstToEnd(root, done, s[1..], gone + [s[0]]);
    assert s[1..][1..] == s[2..] && gone + [s[0]] + [s[1]] == gone + s[..2];
    var q := Part(s[2..], rare, noFlip);
    assert gone + (s[..2] + q.moved) == gone + s[..2] + q.moved;
  }

  lemma PartDangles(list: seq<BlockId>, root: BlockId, tail: seq<BlockId>, rare: set<BlockId>, noFlip: set<BlockId>,
                    done: seq<BlockId>, s: seq<BlockId>, gone: seq<BlockId>)
    requires PartAt(list, root, tail, rare, noFlip, done, s, gone) && |s| == 1 && s[0] in rare && s[0] in noFlip
    ensures ToEnd(ToEnd(list, 1 + |done|), 1 + |done|) == Parted(root, tail, rare, noFlip)
  {
    FirstToEnd(root, done, s, gone);
    var moved := gone + s;
    assert s == [s[0]] && s[1..] == [] && done + [] == done;
    FirstToEnd(root, done, moved, []);
    assert [root] + done + [] + (gone + [s[0]]) == [root] + done + moved + [];
    assert [root] + done + moved[1..] + ([] + [moved[0]]) == [root] + done + (moved[1..] + [moved[0]]);
  }

  lemma PartMoved(list: seq<BlockId>, root: BlockId, tail: seq<BlockId>, rare: set<BlockId>, noFlip: set<BlockId>,
                  done: seq<BlockId>, s: seq<BlockId>, gone: seq<BlockId>, moved: nat)
    requires PartAt(list, root, tail, rare, noFlip, done, s, gone) && s != [] && s[0] in rare
    requires moved == if s[0] in noFlip then 2 else 1
    ensures var i := 1 + |done|; var list' := if moved == 2 then ToEnd(ToEnd(list, i), i) else ToEnd(list, i);
      if moved <= |s| then PartAt(list', root, tail, rare, noFlip, done, s[moved..], gone + s[..moved])
      else list' == Parted(root, tail, rare, noFlip)
  {
    if moved == 1 {
      PartMoves(list, root, tail, rare, noFlip, done, s, gone);
      assert s[..1] == [s[0]];
    } else if |s| >= 2 {
      PartMovesTwo(list, root, tail, rare, noFlip, done, s, gone);
    } else {
      PartDangles(list, root, tail, rare, noFlip, done, s, gone);
    }
  }

  /** Blocks behind those that were moved are still as they were. */
  lemma RestPlain(list: seq<BlockId>, t: Table, t': Table, root: BlockId, done: seq<BlockId>, s: seq<BlockId>,
                  gone: seq<BlockId>, moved: nat)
    requires NoDup(list) && list == [root] + done + s + gone && 1 <= moved <= 2 && moved <= |s|
    requires forall k :: 0 <= k < |s| ==> s[k] in t && !t[s[k]].connector
    requires var i := 1 + |done|;
      forall c :: c in t && c != list[i] && (moved == 2 ==> c != ToEnd(list, i)[i]) ==> c in t' && t'[c] == t[c]
    ensures forall k :: 0 <= k < |s[moved..]| ==> s[moved..][k] in t' && !t'[s[moved..][k]].connector
  {
    FirstToEnd(root, done, s, gone);
    if moved == 2 {
      FirstToEnd(root, done, s[1..], gone + [s[0]]);
    }
    var i := 1 + |done|;
    forall k | 0 <= k < |s[moved..]| ensures s[moved..][k] in t' && !t'[s[moved..][k]].connector {
      assert s[moved..][k] == s[moved + k] == list[i + moved + k];
      assert list[i] == s[0] && list[i + moved - 1] == s[moved - 1];
    }
  }

  /** With no uncommon blocks, the list stays as it is. */
  lemma {:induction false} PartNone(s: seq<BlockId>, noFlip: set<BlockId>)
    ensures Part(s, {}, noFlip) == Parting(s, [], false)
  {
    if s != [] {
      PartNone(s[1..], noFlip);
      assert s == [s[0]] + s[1..];
    }
  }

  lemma PartedNone(list: seq<BlockId>, noFlip: set<BlockId>)
    requires |list| >= 1
    ensures Parted(list[0], list[1..], {}, noFlip) == list
  {
    PartNone(list[1..], noFlip);
  }

  // ----- The table -----

  /** move_to_end on an empty block: the goto goes, the block stays as a connector. */
  ghost function AsConnector(b: Block): Block {
    b.(connector := true, hasGoto := false)
  }

  ghost function Connected(t: Table, marked: set<BlockId>): Table {
    map b | b in t :: if b in marked then AsConnector(t[b]) else t[b]
  }

  ghost function NoFlips(t: Table): set<BlockId> {
    set b | b in t && NoFlip(t[b])
  }

  ghost function Empties(t: Table): set<BlockId> {
    set b | b in t && t[b].empty
  }

  /** Some of the empty blocks of t0 have become connectors. */
  ghost predicate PartlyConnected(t0: Table, t: Table) {
    exists marked :: marked <= Empties(t0) && t == Connected(t0, marked)
  }

  lemma ConnectOne(t0: Table, t: Table, b: BlockId)
    requires PartlyConnected(t0, t) && b in t0
    ensures b in t && t[b].empty == t0[b].empty && NoFlip(t[b]) == NoFlip(t0[b])
    ensures t[b].empty ==> PartlyConnected(t0, t[b := AsConnector(t[b])])
  {
    var marked :| marked <= Empties(t0) && t == Connected(t0, marked);
    if t[b].empty {
      assert t[b := AsConnector(t[b])] == Connected(t0, marked + {b});
    }
  }

  /** The list has the blocks of t0, root first, and some of the empty ones have become connectors. */
  ghost predicate ListedAs(t0: Table, root: BlockId, list: seq<BlockId>, t: Table) {
    NoDup(list) && Elems(list) == t0.Keys && 1 <= |list| && list[0] == root && PartlyConnected(t0, t)
  }

  ghost predicate PartingOf(t0: Table, rare: set<BlockId>, list: seq<BlockId>, t: Table, root: BlockId,
                            tail: seq<BlockId>, done: seq<BlockId>, s: seq<BlockId>, gone: seq<BlockId>)
  {
    && ListedAs(t0, root, list, t) && PartAt(list, root, tail, rare, NoFlips(t0), done, s, gone)
    && forall k :: 0 <= k < |s| ==> s[k] in t && !t[s[k]].connector
  }

  /**
   * The list is parted up to s, of which no block is a connector yet. (Folded: it opens where PartingOf is mentioned.)
   */
  ghost predicate PartingIn(t0: Table, rare: set<BlockId>, list: seq<BlockId>, t: Table, root: BlockId,
                            tail: seq<BlockId>, done: seq<BlockId>, s: seq<BlockId>, gone: seq<BlockId>)
  {
    forall x: seq<BlockId> :: x == s ==> PartingOf(t0, rare, list, t, root, tail, done, x, gone)
  }

  lemma FirstIsPlain(t0: Table, rare: set<BlockId>, list: seq<BlockId>, t: Table, root: BlockId,
                     tail: seq<BlockId>, done: seq<BlockId>, s: seq<BlockId>, gone: seq<BlockId>)
    requires PartingIn(t0, rare, list, t, root, tail, done, s, gone) && s != []
    ensures ListedAs(t0, root, list, t) && 1 + |done| < |list| && list[1 + |done|] == s[0]
    ensures s[0] in t && !t[s[0]].connector
  {
    assert PartingOf(t0, rare, list, t, root, tail, done, s, gone);
    FirstToEnd(root, done, s, gone);
  }

  lemma PartEnds(t0: Table, rare: set<BlockId>, list: seq<BlockId>, t: Table, root: BlockId,
                 tail: seq<BlockId>, done: seq<BlockId>, gone: seq<BlockId>)
    requires PartingIn(t0, rare, list, t, root, tail, done, [], gone)
    ensures ListedAs(t0, root, list, t) && list == Parted(root, tail, rare, NoFlips(t0))
  {
    assert PartingOf(t0, rare, list, t, root, tail, done, [], gone);
  }

  lemma FirstStays(t0: Table, rare: set<BlockId>, list: seq<BlockId>, t: Table, root: BlockId,
                   tail: seq<BlockId>, done: seq<BlockId>, s: seq<BlockId>, gone: seq<BlockId>)
    requires PartingIn(t0, rare, list, t, root, tail, done, s, gone) && s != [] && s[0] !in rare
    ensures PartingIn(t0, rare, list, t, root, tail, done + [s[0]], s[1..], gone)
  {
    assert PartingOf(t0, rare, list, t, root, tail, done, s, gone);
    PartKeeps(list, root, tail, rare, NoFlips(t0), done, s, gone);
  }

  /** What moving the first block of s makes of the list. */
  ghost predicate MovedFirst(t0: Table, done: seq<BlockId>, s: seq<BlockId>, list: seq<BlockId>, list': seq<BlockId>,
                             moved: nat)
  {
    var i := 1 + |done|;
    && s != [] && moved == (if s[0] in NoFlips(t0) then 2 else 1) && i < |list|
    && list' == (if moved == 2 then ToEnd(ToEnd(list, i), i) else ToEnd(list, i))
  }

  lemma FirstMovesList(t0: Table, rare: set<BlockId>, list: seq<BlockId>, t: Table, root: BlockId,
                       tail: seq<BlockId>, done: seq<BlockId>, s: seq<BlockId>, gone: seq<BlockId>,
                       list': seq<BlockId>, moved: nat)
    requires PartingIn(t0, rare, list, t, root, tail, done, s, gone)
    requires MovedFirst(t0, done, s, list, list', moved) && s[0] in rare
    ensures if moved <= |s| then PartAt(list', root, tail, rare, NoFlips(t0), done, s[moved..], gone + s[..moved])
            else list' == Parted(root, tail, rare, NoFlips(t0))
  {
    assert PartingOf(t0, rare, list, t, root, tail, done, s, gone);
    PartMoved(list, root, tail, rare, NoFlips(t0), done, s, gone, moved);
  }

  lemma FirstMovesTable(t0: Table, rare: set<BlockId>, list: seq<BlockId>, t: Table, root: BlockId,
                        tail: seq<BlockId>, done: seq<BlockId>, s: seq<BlockId>, gone: seq<BlockId>,
                        t': Table, moved: nat)
    requires PartingIn(t0, rare, list, t, root, tail, done, s, gone) && 1 <= moved <= 2 && moved <= |s|
    requires 1 + |done| < |list|
    requires var i := 1 + |done|;
      forall c :: c in t && c != list[i] && (moved == 2 ==> c != ToEnd(list, i)[i]) ==> c in t' && t'[c] == t[c]
    ensures forall k :: 0 <= k < |s[moved..]| ==> s[moved..][k] in t' && !t'[s[moved..][k]].connector
  {
    assert PartingOf(t0, rare, list, t, root, tail, done, s, gone);
    RestPlain(list, t, t', root, done, s, gone, moved);
  }

  lemma IsParting(t0: Table, rare: set<BlockId>, list: seq<BlockId>, t: Table, root: BlockId,
                  tail: seq<BlockId>, done: seq<BlockId>, s: seq<BlockId>, gone: seq<BlockId>)
    requires ListedAs(t0, root, list, t) && PartAt(list, root, tail, rare, NoFlips(t0), done, s, gone)
    requires forall k :: 0 <= k < |s| ==> s[k] in t && !t[s[k]].connector
    ensures PartingIn(t0, rare, list, t, root, tail, done, s, gone)
  {
  }

  lemma FirstMoves(t0: Table, rare: set<BlockId>, list: seq<BlockId>, t: Table, root: BlockId,
                   tail: seq<BlockId>, done: seq<BlockId>, s: seq<BlockId>, gone: seq<BlockId>,
                   list': seq<BlockId>, t': Table, moved: nat)
    requires PartingIn(t0, rare, list, t, root, tail, done, s, gone) && ListedAs(t0, root, list', t')
    requires MovedFirst(t0, done, s, list, list', moved) && s[0] in rare
    requires var i := 1 + |done|;
      forall c :: c in t && c != list[i] && (moved == 2 ==> c != ToEnd(list, i)[i]) ==> c in t' && t'[c] == t[c]
    ensures if moved <= |s| then PartingIn(t0, rare, list', t', root, tail, done, s[moved..], gone + s[..moved])
            else list' == Parted(root, tail, rare, NoFlips(t0))
  {
    FirstMovesList(t0, rare, list, t, root, tail, done, s, gone, list', moved);
    if moved <= |s| {
      FirstMovesTable(t0, rare, list, t, root, tail, done, s, gone, t', moved);
      IsParting(t0, rare, list', t', root, tail, done, s[moved..], gone + s[..moved]);
    }
  }

  ghost predicate MarkedIn(t: Table, e: set<BlockId>, tail: seq<BlockId>, k: nat)
    requires k <= |tail|
  {
    forall j :: 0 <= j < k && tail[j] in e ==> tail[j] in t && t[tail[j]].connector
  }

  lemma MarkedNext(t: Table, t': Table, e: set<BlockId>, tail: seq<BlockId>, k: nat)
    requires k < |tail| && MarkedIn(t, e, tail, k) && (tail[k] in e ==> tail[k] in t' && t'[tail[k]].connector)
    requires forall c :: c in t && t[c].connector ==> c in t' && t'[c].connector
    ensures MarkedIn(t', e, tail, k + 1)
  {
  }

  class BlockCleaner {
    var blocks: seq<BlockId>
    var table: Table
    /** C->do_freq_based_layout() */
    const freqBased: bool
    /** is_uncommon depends on frequencies and can be anything. */
    const uncommon: set<BlockId>

    constructor (blocks: seq<BlockId>, table: Table, freqBased: bool, uncommon: set<BlockId>)
      ensures this.blocks == blocks && this.table == table && this.freqBased == freqBased && this.uncommon == uncommon
    {
      this.blocks, this.table, this.freqBased, this.uncommon := blocks, table, freqBased, uncommon;
    }

    ghost predicate Listed(t0: Table, root: BlockId)
      reads this
    {
      ListedAs(t0, root, blocks, table)
    }

    method MoveToEnd(i: nat)
      requires 0 < i < |blocks| && blocks[i] in table
      modifies this`blocks, this`table
      ensures blocks == ToEnd(old(blocks), i)
      ensures table == if old(table)[old(blocks)[i]].empty
        then old(table)[old(blocks)[i] := AsConnector(old(table)[old(blocks)[i]])] else old(table)
    {
      var b := blocks[i];
      if table[b].empty {
        table := table[b := table[b].(connector := true, hasGoto := false)];
      }
      blocks := blocks[..i] + blocks[i + 1..] + [b];
    }

    method MoveListed(i: nat, ghost t0: Table, ghost root: BlockId)
      requires Listed(t0, root) && 0 < i < |blocks|
      modifies this`blocks, this`table
      ensures Listed(t0, root) && |blocks| == |old(blocks)| && blocks == ToEnd(old(blocks), i)
      ensures var b := old(blocks)[i]; b in table && (table[b].empty ==> table[b].connector)
      ensures forall c :: c in old(table) && old(table)[c].connector ==> c in table && table[c].connector
      ensures forall c :: c in old(table) && c != old(blocks)[i] ==> c in table && table[c] == old(table)[c]
    {
      assert blocks[i] in Elems(blocks);
      ConnectOne(t0, table, blocks[i]);
      ToEndKeeps(blocks, i);
      MoveToEnd(i);
    }

    /** The blocks that are moved for being uncommon. */
    ghost function Rare(): set<BlockId> {
      if freqBased then {} else uncommon
    }

    ghost predicate Parting(t0: Table, root: BlockId, tail: seq<BlockId>, done: seq<BlockId>, s: seq<BlockId>,
                            gone: seq<BlockId>)
      reads this
    {
      PartingIn(t0, Rare(), blocks, table, root, tail, done, s, gone)
    }

    /** Position i moves to the end, and what is there then follows if it was a no-flip branch. */
    method MoveWithNext(i: nat, ghost t0: Table, ghost root: BlockId) returns (moved: nat)
      requires Listed(t0, root) && 0 < i < |blocks|
      modifies this`blocks, this`table
      ensures Listed(t0, root) && moved == if old(blocks)[i] in NoFlips(t0) then 2 else 1
      ensures blocks == if moved == 2 then ToEnd(ToEnd(old(blocks), i), i) else ToEnd(old(blocks), i)
      ensures forall c :: c in old(table) && c != old(blocks)[i] && (moved == 2 ==> c != ToEnd(old(blocks), i)[i]) ==>
        c in table && table[c] == old(table)[c]
    {
      var b := blocks[i];
      assert b in Elems(blocks);
      MoveListed(i, t0, root);
      ConnectOne(t0, table, b);
      moved := 1;
      if NoFlip(table[b]) {
        MoveListed(i, t0, root);
        moved := 2;
      }
    }

    /** The first block of s stays, or goes to the end, with the block that must follow a no-flip branch. */
    method PartNext(i: nat, ghost t0: Table, ghost root: BlockId, ghost tail: seq<BlockId>,
                    ghost done: seq<BlockId>, ghost s: seq<BlockId>, ghost gone: seq<BlockId>) returns (moved: nat)
      requires Parting(t0, root, tail, done, s, gone) && i == 1 + |done| && s != []
      modifies this`blocks, this`table
      ensures Listed(t0, root)
      ensures moved == if s[0] !in Rare() then 0 else if s[0] in NoFlips(t0) then 2 else 1
      ensures moved == 0 ==> Parting(t0, root, tail, done + [s[0]], s[1..], gone)
      ensures 0 < moved <= |s| ==> Parting(t0, root, tail, done, s[moved..], gone + s[..moved])
      ensures moved > |s| ==> blocks == Parted(root, tail, Rare(), NoFlips(t0))
    {
      FirstIsPlain(t0, Rare(), blocks, table, root, tail, done, s, gone);
      var b := blocks[i];
      if freqBased || b !in uncommon {
        FirstStays(t0, Rare(), blocks, table, root, tail, done, s, gone);
        return 0;
      }
      ghost var list, t := blocks, table;
      moved := MoveWithNext(i, t0, root);
      FirstMoves(t0, Rare(), list, t, root, tail, done, s, gone, blocks, table, moved);
    }

    /** Uncommon blocks go to the end, with the block that must follow a no-flip branch. */
    method MoveUncommon(ghost t0: Table, ghost root: BlockId)
      requires Listed(t0, root) && forall b :: b in table ==> !table[b].connector
      modifies this`blocks, this`table
      ensures Listed(t0, root) && blocks == Parted(root, old(blocks)[1..], Rare(), NoFlips(t0))
    {
      ghost var tail := blocks[1..];
      ghost var done, s, gone := [], tail, [];
      HeadAndTail(blocks);
      assert PartingOf(t0, Rare(), blocks, table, root, tail, done, s, gone);
      var last: int := |blocks|;
      var i := 1;
      while i < last
        invariant if last < i then Listed(t0, root) && blocks == Parted(root, tail, Rare(), NoFlips(t0))
                  else i == 1 + |done| && last == i + |s| && Parting(t0, root, tail, done, s, gone)
        decreases last - i
      {
        FirstIsPlain(t0, Rare(), blocks, table, root, tail, done, s, gone);
        if table[blocks[i]].connector {
          break;
        }
        var moved := PartNext(i, t0, root, tail, done, s, gone);
        if moved == 0 {
          i := i + 1;
          done, s := done + [s[0]], s[1..];
        } else {
          last := last - moved;
          if moved <= |s| {
            s, gone := s[moved..], gone + s[..moved];
          }
        }
      }
      if last == i {
        PartEnds(t0, Rare(), blocks, table, root, tail, done, gone);
      }
    }

    /** Position i of the list, which is block k of tail, is moved to the end if it is empty. */
    method CheckEmpty(i: nat, ghost t0: Table, ghost root: BlockId, ghost tail: seq<BlockId>, ghost k: nat)
      returns (moved: bool)
      requires Listed(t0, root) && k < |tail| && blocks == Sorted(root, tail, Empties(t0), k)
      requires i == 1 + |Outside(tail[..k], Empties(t0))|
      modifies this`blocks, this`table
      ensures Listed(t0, root) && blocks == Sorted(root, tail, Empties(t0), k + 1)
      ensures moved == (tail[k] in Empties(t0)) && (moved ==> tail[k] in table && table[tail[k]].connector)
      ensures forall c :: c in old(table) && old(table)[c].connector ==> c in table && table[c].connector
    {
      SortedNext(root, tail, Empties(t0), k);
      assert blocks[i] in Elems(blocks);
      ConnectOne(t0, table, blocks[i]);
      moved := table[blocks[i]].empty;
      if moved {
        MoveListed(i, t0, root);
      }
    }

    /** The empty ones among the first k blocks of tail are connectors. */
    ghost predicate Marked(e: set<BlockId>, tail: seq<BlockId>, k: nat)
      requires k <= |tail|
      reads this`table
    {
      MarkedIn(table, e, tail, k)
    }

    /** Empty blocks go to the end, behind all others, and become connectors. */
    method MoveEmpty(ghost t0: Table, ghost root: BlockId, ghost tail: seq<BlockId>)
      requires Listed(t0, root) && blocks == [root] + tail
      modifies this`blocks, this`table
      ensures Listed(t0, root) && blocks == Sorted(root, tail, Empties(t0), |tail|) && Marked(Empties(t0), tail, |tail|)
    {
      ghost var k := 0;
      SortedStart(root, tail, Empties(t0));
      var last := |blocks|;
      var i := 1;
      while i < last
        invariant k <= |tail| && i == 1 + |Outside(tail[..k], Empties(t0))| && last == i + |tail| - k
        invariant Listed(t0, root) && blocks == Sorted(root, tail, Empties(t0), k) && Marked(Empties(t0), tail, k)
        decreases |tail| - k
      {
        PartsNext(tail, Empties(t0), k);
        ghost var t := table;
        var moved := CheckEmpty(i, t0, root, tail, k);
        MarkedNext(t, table, Empties(t0), tail, k);
        if moved {
          last := last - 1;
        } else {
          i := i + 1;
        }
        k := k + 1;
      }
    }

    /**
     * remove_empty_blocks: the list is a permutation with the root first, the blocks that are not empty in their
     * order, then exactly the empty blocks, which are the connectors.
     */
    method RemoveEmptyBlocks() returns (ghost tail: seq<BlockId>)
      requires NoDup(blocks) && Elems(blocks) == table.Keys && 1 <= |blocks| && !table[blocks[0]].empty
      requires forall b :: b in table ==> !table[b].connector
      modifies this`blocks, this`table
      ensures NoDup(blocks) && Elems(blocks) == old(table).Keys && 1 <= |blocks| && blocks[0] == old(blocks)[0]
      ensures table == Connected(old(table), Empties(old(table)))
      ensures TraceOrder.Suffix(Empties(old(table)), blocks)
      ensures blocks == Sorted(blocks[0], tail, Empties(old(table)), |tail|)
      ensures [blocks[0]] + tail == Parted(blocks[0], old(blocks)[1..], Rare(), NoFlips(old(table)))
      ensures freqBased ==> tail == old(blocks)[1..]
    {
      ghost var t0, root := table, blocks[0];
      NothingConnected(t0);
      PartedNone(blocks, NoFlips(t0));
      MoveUncommon(t0, root);
      HeadAndTail(blocks);
      tail := blocks[1..];
      MoveEmpty(t0, root, tail);
      AllConnected(t0, table, root, tail);
      SortedLast(root, tail, Empties(t0));
    }
  }

  lemma NothingConnected(t0: Table)
    ensures PartlyConnected(t0, t0)
  {
    assert t0 == Connected(t0, {});
  }

  lemma HeadAndTail(s: seq<BlockId>)
    requires |s| >= 1
    ensures s == [s[0]] + s[1..]
  {
  }

  lemma AllConnected(t0: Table, t: Table, root: BlockId, tail: seq<BlockId>)
    requires PartlyConnected(t0, t) && root in t0 && !t0[root].empty && Elems([root] + tail) == t0.Keys
    requires forall j :: 0 <= j < |tail| && tail[j] in Empties(t0) ==> tail[j] in t && t[tail[j]].connector
    requires forall b :: b in t0 ==> !t0[b].connector
    ensures t == Connected(t0, Empties(t0))
  {
    var marked :| marked <= Empties(t0) && t == Connected(t0, marked);
    forall b | b in Empties(t0) ensures b in marked {
      assert b in Elems([root] + tail);
    }
    assert marked == Empties(t0);
  }

  // ----- What the later phases get -----

  lemma ThreeParts(root: BlockId, a: seq<BlockId>, b: seq<BlockId>, p: nat)
    requires p < 1 + |a| + |b|
    ensures var s := [root] + a + b;
      s[p] == (if p == 0 then root else if p <= |a| then a[p - 1] else b[p - 1 - |a|])
  {
  }

  lemma SortedAll(root: BlockId, tail: seq<BlockId>, e: set<BlockId>)
    ensures Sorted(root, tail, e, |tail|) == [root] + Outside(tail, e) + Inside(tail, e)
  {
    assert tail[..|tail|] == tail && tail[|tail|..] == [];
    assert [root] + Outside(tail, e) + [] == [root] + Outside(tail, e);
  }

  lemma SortedAt(root: BlockId, tail: seq<BlockId>, e: set<BlockId>, p: nat)
    requires p < |Sorted(root, tail, e, |tail|)|
    ensures var s, a, b := Sorted(root, tail, e, |tail|), Outside(tail, e), Inside(tail, e);
      |s| == 1 + |a| + |b| && s[p] == (if p == 0 then root else if p <= |a| then a[p - 1] else b[p - 1 - |a|])
  {
    SortedAll(root, tail, e);
    ThreeParts(root, Outside(tail, e), Inside(tail, e), p);
  }

  lemma SortedParts(root: BlockId, tail: seq<BlockId>, e: set<BlockId>, p: nat)
    requires root !in e && p < |Sorted(root, tail, e, |tail|)|
    ensures var s, a, b := Sorted(root, tail, e, |tail|), Outside(tail, e), Inside(tail, e);
      && |s| == 1 + |a| + |b|
      && (s[p] in e <==> p > |a|)
      && s[p] == (if p == 0 then root else if p <= |a| then a[p - 1] else b[p - 1 - |a|])
      && (p > 0 ==> s[p] in tail)
  {
    SortedAt(root, tail, e, p);
    if p > 0 {
      Members(tail, e, Sorted(root, tail, e, |tail|)[p]);
    }
  }

  lemma SortedLast(root: BlockId, tail: seq<BlockId>, e: set<BlockId>)
    requires root !in e
    ensures TraceOrder.Suffix(e, Sorted(root, tail, e, |tail|))
  {
    var s := Sorted(root, tail, e, |tail|);
    forall p, q | 0 <= p < q < |s| && s[p] in e ensures s[q] in e {
      SortedParts(root, tail, e, p);
      SortedParts(root, tail, e, q);
    }
  }

  /** The list has its empty blocks moved to the end; before, it was numbered from 1 in list order. */
  ghost predicate Renumbered(list: seq<BlockId>, t0: Table, blocks: seq<BlockId>) {
    && 1 <= |list| && Elems(list) == t0.Keys && !t0[list[0]].empty && (forall b :: b in t0 ==> !t0[b].connector)
    && (forall i, j :: 0 <= i < j < |list| ==> list[i] < list[j])
    && (forall i :: 0 <= i < |list| ==> list[i] <= |list|)
    && NoDup(blocks) && Elems(blocks) == t0.Keys && |blocks| == |list|
    && blocks == Sorted(list[0], list[1..], Empties(t0), |list| - 1)
  }

  lemma SortedBounds(list: seq<BlockId>, t0: Table, blocks: seq<BlockId>, p: nat)
    requires Renumbered(list, t0, blocks) && p < |blocks|
    ensures blocks[p] in t0 && blocks[0] <= blocks[p] <= |blocks|
  {
    SortedParts(list[0], list[1..], Empties(t0), p);
    assert blocks[p] in Elems(blocks);
  }

  lemma SortedPairs(root: BlockId, tail: seq<BlockId>, e: set<BlockId>, p: nat, q: nat)
    requires root !in e && p < q < |Sorted(root, tail, e, |tail|)|
    requires (forall i, j :: 0 <= i < j < |tail| ==> tail[i] < tail[j]) && forall x :: x in tail ==> root < x
    ensures var s := Sorted(root, tail, e, |tail|);
      (s[p] in e ==> s[q] in e) && ((s[p] in e <==> s[q] in e) ==> s[p] < s[q])
  {
    PartsIncrease(tail, e);
    SortedParts(root, tail, e, p);
    SortedParts(root, tail, e, q);
  }

  lemma SortedInOrder(list: seq<BlockId>, t0: Table, blocks: seq<BlockId>, p: nat, q: nat)
    requires Renumbered(list, t0, blocks)
    ensures BlockLayout.InOrder(blocks, Connected(t0, Empties(t0)), p, q)
  {
    if p < q < |blocks| {
      SortedPairs(list[0], list[1..], Empties(t0), p, q);
    }
  }

  /** Numbered in list order, the blocks come out as the frequency based layout needs them. */
  lemma SortedIsOrderly(list: seq<BlockId>, t0: Table, blocks: seq<BlockId>)
    requires Renumbered(list, t0, blocks)
    ensures BlockLayout.Orderly(blocks, Connected(t0, Empties(t0)))
  {
    forall p | 0 <= p < |blocks| ensures blocks[p] in t0 && blocks[0] <= blocks[p] <= |blocks| {
      SortedBounds(list, t0, blocks, p);
    }
    forall p: nat, q: nat ensures BlockLayout.InOrder(blocks, Connected(t0, Empties(t0)), p, q) {
      SortedInOrder(list, t0, blocks, p, q);
    }
  }

  /** An empty block only passes control on. */
  ghost predicate PassesOn(b: Block) {
    b.empty ==> b.ender.Goto? && |b.succs| == 1 && b.succs[0].con == FALL_THROUGH
  }

  /** Empty blocks that control can reach pass it on. */
  ghost predicate EmptiesPass(t: Table) {
    forall b: BlockId, j: nat :: PassesFrom(t, b, j)
  }

  ghost predicate PassesFrom(t: Table, b: BlockId, j: nat) {
    b in t && j < |t[b].succs| && t[b].succs[j].to in t ==> PassesOn(t[t[b].succs[j].to])
  }

  ghost predicate Before(t: Table, rank: Rank) {
    Grounded(t, rank) && (forall b :: b in t ==> !t[b].connector) && EmptiesPass(t) &&
      Grounded(Connected(t, Empties(t)), rank)
  }

  ghost function Visible(t: Table, s: seq<BlockId>): seq<BlockId> {
    if s == [] then [] else (if s[0] in t && t[s[0]].empty then [] else [s[0]]) + Visible(t, s[1..])
  }

  /** The outcomes of the blocks that are not empty. */
  ghost function Kept(t: Table, rank: Rank, b: BlockId, ds: seq<nat>): seq<nat>
    requires Grounded(t, rank) && b in t
    decreases |ds|
  {
    if ds == [] then []
    else
      (if t[b].empty then [] else [ds[0]]) +
      match CfgNext(t, rank, b, ds[0])
      case None => []
      case Some(n) => Kept(t, rank, n, ds[1..])
  }

  lemma VisibleCons(t: Table, b: BlockId, s: seq<BlockId>)
    ensures Visible(t, [b] + s) == (if b in t && t[b].empty then [] else [b]) + Visible(t, s)
  {
    assert ([b] + s)[1..] == s;
  }

  /** Where control goes next, seen with and without the empty blocks. */
  lemma NextWithout(t: Table, rank: Rank, b: BlockId, d: nat)
    requires Before(t, rank) && b in t && PassesOn(t[b])
    ensures var t', n := Connected(t, Empties(t)), CfgNext(t, rank, b, d);
      && (n.Some? ==> n.value in t && PassesOn(t[n.value]))
      && if t[b].empty then n.Some? ==> Resolve(t', rank, b) == Resolve(t', rank, n.value)
         else CfgNext(t', rank, b, d) == if n.Some? then Some(Resolve(t', rank, n.value)) else None
  {
    var t' := Connected(t, Empties(t));
    if !t[b].ender.Exit? && HasCon(t[b], d) {
      var j := Slot(t[b].succs, d);
      var n := t[b].succs[j].to;
      assert Resolve(t, rank, n) == n;
      assert PassesFrom(t, b, j);
    }
  }

  /** run' is what run visits besides empty blocks, and possibly goes on if run ends in an empty block. */
  ghost predicate Alike(t: Table, run: seq<BlockId>, run': seq<BlockId>) {
    && |run| > 0 && run[|run| - 1] in t
    && Visible(t, run) <= run'
    && (!t[run[|run| - 1]].empty ==> Visible(t, run) == run')
  }

  lemma AlikeCons(t: Table, b: BlockId, run: seq<BlockId>, run': seq<BlockId>)
    requires b in t && Alike(t, run, run')
    ensures Alike(t, [b] + run, (if t[b].empty then [] else [b]) + run')
  {
    VisibleCons(t, b, run);
    assert ([b] + run)[|run|] == run[|run| - 1];
  }

  /** The run without the empty blocks, on the outcomes of the others. */
  ghost function RunWithout(t: Table, rank: Rank, b: BlockId, ds: seq<nat>): seq<BlockId>
    requires Before(t, rank) && b in t
  {
    var t' := Connected(t, Empties(t));
    CfgRun(t', rank, Resolve(t', rank, b), Kept(t, rank, b, ds))
  }

  /** The run of t from b shows what the run without the empty blocks does. */
  ghost predicate RunsAlike(t: Table, rank: Rank, b: BlockId, ds: seq<nat>)
    requires Before(t, rank) && b in t
  {
    Alike(t, CfgRun(t, rank, b, ds), RunWithout(t, rank, b, ds))
  }

  lemma RunEnds(t: Table, rank: Rank, b: BlockId, ds: seq<nat>)
    requires Before(t, rank) && b in t && PassesOn(t[b]) && (ds == [] || CfgNext(t, rank, b, ds[0]).None?)
    ensures RunsAlike(t, rank, b, ds)
  {
    var t' := Connected(t, Empties(t));
    VisibleCons(t, b, []);
    assert [b] + [] == [b];
    assert CfgRun(t, rank, b, ds) == [b];
    if !t[b].empty {
      assert Resolve(t', rank, b) == b;
      if ds != [] {
        NextWithout(t, rank, b, ds[0]);
        assert Kept(t, rank, b, ds) == [ds[0]];
      }
      assert CfgRun(t', rank, b, Kept(t, rank, b, ds)) == [b];
    }
  }

  lemma RunCons(t: Table, rank: Rank, b: BlockId, d: nat, ds: seq<nat>, n: BlockId)
    requires Grounded(t, rank) && b in t && CfgNext(t, rank, b, d) == Some(n) && n in t
    ensures CfgRun(t, rank, b, [d] + ds) == [b] + CfgRun(t, rank, n, ds)
    ensures Kept(t, rank, b, [d] + ds) == (if t[b].empty then [] else [d]) + Kept(t, rank, n, ds)
  {
    assert ([d] + ds)[1..] == ds;
  }

  lemma WithoutCons(t: Table, rank: Rank, b: BlockId, d: nat, ds: seq<nat>, n: BlockId)
    requires Before(t, rank) && b in t && PassesOn(t[b]) && CfgNext(t, rank, b, d) == Some(n) && n in t
    ensures RunWithout(t, rank, b, [d] + ds) == (if t[b].empty then [] else [b]) + RunWithout(t, rank, n, ds)
  {
    var t' := Connected(t, Empties(t));
    var kept := Kept(t, rank, n, ds);
    NextWithout(t, rank, b, d);
    RunCons(t, rank, b, d, ds, n);
    if t[b].empty {
      assert [] + kept == kept;
    } else {
      assert Resolve(t', rank, b) == b;
      RunCons(t', rank, b, d, kept, Resolve(t', rank, n));
    }
  }

  lemma RunGoesOn(t: Table, rank: Rank, b: BlockId, ds: seq<nat>, n: BlockId)
    requires Before(t, rank) && b in t && PassesOn(t[b]) && ds != [] && CfgNext(t, rank, b, ds[0]) == Some(n)
    requires n in t && RunsAlike(t, rank, n, ds[1..])
    ensures RunsAlike(t, rank, b, ds)
  {
    var d, rest := ds[0], ds[1..];
    assert ds == [d] + rest;
    RunCons(t, rank, b, d, rest, n);
    WithoutCons(t, rank, b, d, rest, n);
    AlikeCons(t, b, CfgRun(t, rank, n, rest), RunWithout(t, rank, n, rest));
  }

  /**
   * Without the empty blocks the graph visits the same other blocks: as long as it has outcomes for them, and
   * exactly those if the run does not end inside a chain of empty blocks.
   */
  lemma {:induction false} EmptyBlocksDontMatter(t: Table, rank: Rank, b: BlockId, ds: seq<nat>)
    requires Before(t, rank) && b in t && PassesOn(t[b])
    ensures RunsAlike(t, rank, b, ds)
    decreases |ds|
  {
    if ds == [] || CfgNext(t, rank, b, ds[0]).None? {
      RunEnds(t, rank, b, ds);
    } else {
      var n := CfgNext(t, rank, b, ds[0]).value;
      NextWithout(t, rank, b, ds[0]);
      EmptyBlocksDontMatter(t, rank, n, ds[1..]);
      RunGoesOn(t, rank, b, ds, n);
    }
  }
}
