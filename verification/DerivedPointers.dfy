/**
 * Derived pointers across a collection (compiler/oopMap.cpp): while frames are
 * scanned, each derived slot is recorded and made to point at its base slot; when
 * the collection is over, it is recomputed from the base's new value.
 */
module DerivedPointers {
  import opened Wrappers

  type Addr = int
  type Memory = map<Addr, int>

  /** A derived_oop_value entry of a frame's map; the base location may be missing. */
  datatype Pair = Pair(derived: Addr, base: Option<Addr>)

  /** The stack range of a frame and its derived entries; narrowBase is CompressedOops::base(). */
  datatype Frame = Frame(sp: int, top: int, narrowBase: int, pairs: seq<Pair>)

  datatype Entry = Entry(location: Addr, offset: int)

  /** The value refers to an object that a collection may move. */
  ghost predicate Moves(fr: Frame, value: int) {
    value != 0 && value != fr.narrowBase && !(fr.sp <= value < fr.top)
  }

  /** What scanning a pair decides about its derived slot. */
  datatype Fate = Follows(base: Addr, offset: int) | Stays(value: int)

  ghost function At(mem: Memory, a: Addr): int {
    if a in mem then mem[a] else 0
  }

  ghost function FateOf(fr: Frame, p: Pair, mem: Memory): Fate {
    if p.base.Some? && Moves(fr, At(mem, p.base.value))
    then Follows(p.base.value, At(mem, p.derived) - At(mem, p.base.value))
    else Stays(At(mem, p.derived))
  }

  /** All slots of the frame exist; its derived slots are distinct, and none is a base. */
  ghost predicate WellFormed(fr: Frame, mem: Memory) {
    && (forall i :: 0 <= i < |fr.pairs| ==>
      fr.pairs[i].derived in mem && (fr.pairs[i].base.Some? ==> fr.pairs[i].base.value in mem))
    && (forall i, j :: 0 <= i < j < |fr.pairs| ==> fr.pairs[i].derived != fr.pairs[j].derived)
    && (forall i, j :: 0 <= i < |fr.pairs| && 0 <= j < |fr.pairs| ==> fr.pairs[i].base != Some(fr.pairs[j].derived))
  }

  ghost function DerivedSlots(fr: Frame): set<Addr> {
    set i | 0 <= i < |fr.pairs| :: fr.pairs[i].derived
  }

  ghost function BaseSlots(fr: Frame): set<Addr> {
    set i | 0 <= i < |fr.pairs| && fr.pairs[i].base.Some? :: fr.pairs[i].base.value
  }

  /** The slots of fr are other slots than the derived ones in log, in both roles. */
  ghost predicate Apart(fr: Frame, log: map<Addr, Fate>) {
    && DerivedSlots(fr) !! log.Keys && BaseSlots(fr) !! log.Keys
    && forall d :: d in log && log[d].Follows? ==> log[d].base !in DerivedSlots(fr)
  }

  /** log and mem after the first n pairs of fr were scanned in memory m. */
  ghost predicate Scanned(fr: Frame, n: nat, m: Memory, before: map<Addr, Fate>, mem: Memory, log: map<Addr, Fate>)
    requires n <= |fr.pairs| && WellFormed(fr, m)
  {
    && mem.Keys == m.Keys
    && log.Keys == before.Keys + (set i | 0 <= i < n :: fr.pairs[i].derived)
    && (forall d :: d in before ==> log[d] == before[d])
    && (forall i :: 0 <= i < n ==> log[fr.pairs[i].derived] == FateOf(fr, fr.pairs[i], m))
    && (forall a :: a in m && a !in log ==> mem[a] == m[a])
  }

  lemma FreshPair(fr: Frame, i: nat, m: Memory, before: map<Addr, Fate>, mem: Memory, log: map<Addr, Fate>)
    requires i < |fr.pairs| && WellFormed(fr, m) && Apart(fr, before) && Scanned(fr, i, m, before, mem, log)
    ensures fr.pairs[i].derived !in log && (fr.pairs[i].base.Some? ==> fr.pairs[i].base.value !in log)
    ensures forall d :: d in log && log[d].Follows? ==> log[d].base != fr.pairs[i].derived
    ensures FateOf(fr, fr.pairs[i], mem) == FateOf(fr, fr.pairs[i], m)
  {
    assert fr.pairs[i].derived in DerivedSlots(fr);
    assert fr.pairs[i].base.Some? ==> fr.pairs[i].base.value in BaseSlots(fr);
  }

  lemma ScannedNext(fr: Frame, i: nat, m: Memory, before: map<Addr, Fate>, mem: Memory, log: map<Addr, Fate>,
                    mem': Memory)
    requires i < |fr.pairs| && WellFormed(fr, m) && Scanned(fr, i, m, before, mem, log)
    requires fr.pairs[i].derived !in log && mem'.Keys == mem.Keys
    requires forall a :: a in mem && a != fr.pairs[i].derived ==> mem'[a] == mem[a]
    ensures Scanned(fr, i + 1, m, before, mem', log[fr.pairs[i].derived := FateOf(fr, fr.pairs[i], m)])
  {
  }

  // ----- A whole collection -----

  /** Different frames record different derived slots, and no derived slot is a base slot of any frame. */
  ghost predicate SlotsApart(frames: seq<Frame>) {
    && (forall j, k :: 0 <= j < k < |frames| ==> DerivedSlots(frames[j]) !! DerivedSlots(frames[k]))
    && (forall j, k :: 0 <= j < |frames| && 0 <= k < |frames| ==> DerivedSlots(frames[j]) !! BaseSlots(frames[k]))
  }

  /** moves[j] happens after frame j was scanned: it spares derived slots, and base slots still to be scanned. */
  ghost predicate MovesAllowed(frames: seq<Frame>, moves: seq<Memory>, m: Memory) {
    && |moves| == |frames|
    && (forall j :: 0 <= j < |moves| ==> moves[j].Keys <= m.Keys)
    && (forall j, k :: 0 <= j < |moves| && 0 <= k < |frames| ==> moves[j].Keys !! DerivedSlots(frames[k]))
    && (forall j, k :: 0 <= j < k < |frames| ==> moves[j].Keys !! BaseSlots(frames[k]))
  }

  /** Memory after the first n moves alone. */
  ghost function AfterMoves(m: Memory, moves: seq<Memory>, n: nat): Memory
    requires n <= |moves|
  {
    if n == 0 then m else AfterMoves(m, moves, n - 1) + moves[n - 1]
  }

  ghost function AllDerived(frames: seq<Frame>, n: nat): set<Addr>
    requires n <= |frames|
  {
    set k, d | 0 <= k < n && d in DerivedSlots(frames[k]) :: d
  }

  /** The first n frames are scanned: every derived slot has the fate it has in the initial memory m. */
  ghost predicate Fated(frames: seq<Frame>, n: nat, m: Memory, log: map<Addr, Fate>)
    requires n <= |frames|
  {
    && log.Keys == AllDerived(frames, n)
    && forall k, i :: 0 <= k < n && 0 <= i < |frames[k].pairs| ==> HasFate(frames[k], frames[k].pairs[i], m, log)
  }

  ghost predicate HasFate(fr: Frame, p: Pair, m: Memory, log: map<Addr, Fate>) {
    p.derived in log && log[p.derived] == FateOf(fr, p, m)
  }

  /** Frames from n on still have their initial slots. */
  ghost predicate Unscanned(frames: seq<Frame>, n: nat, m: Memory, mem: Memory) {
    && mem.Keys == m.Keys
    && forall k, a :: n <= k < |frames| && a in DerivedSlots(frames[k]) + BaseSlots(frames[k]) ==>
      a in m && mem[a] == m[a]
  }

  lemma SameFate(fr: Frame, m: Memory, mem: Memory)
    requires WellFormed(fr, m) && mem.Keys == m.Keys
    requires forall a :: a in DerivedSlots(fr) + BaseSlots(fr) ==> a in m && mem[a] == m[a]
    ensures WellFormed(fr, mem) && forall i :: 0 <= i < |fr.pairs| ==>
      FateOf(fr, fr.pairs[i], mem) == FateOf(fr, fr.pairs[i], m)
  {
    forall i | 0 <= i < |fr.pairs| ensures FateOf(fr, fr.pairs[i], mem) == FateOf(fr, fr.pairs[i], m) {
      assert fr.pairs[i].derived in DerivedSlots(fr);
      assert fr.pairs[i].base.Some? ==> fr.pairs[i].base.value in BaseSlots(fr);
    }
  }

  lemma NextIsApart(frames: seq<Frame>, n: nat, m: Memory, log: map<Addr, Fate>)
    requires n < |frames| && SlotsApart(frames) && Fated(frames, n, m, log)
    ensures Apart(frames[n], log)
  {
    forall d | d in log && log[d].Follows? ensures log[d].base !in DerivedSlots(frames[n]) {
      var k, e :| 0 <= k < n && e in DerivedSlots(frames[k]) && e == d;
      var i :| 0 <= i < |frames[k].pairs| && frames[k].pairs[i].derived == d;
      assert log[d].base in BaseSlots(frames[k]);
    }
  }

  lemma FatedNext(frames: seq<Frame>, n: nat, m: Memory, log: map<Addr, Fate>, mem: Memory, mem': Memory,
                  log': map<Addr, Fate>)
    requires n < |frames| && WellFormed(frames[n], m) && Fated(frames, n, m, log)
    requires Unscanned(frames, n, m, mem) && WellFormed(frames[n], mem)
    requires Scanned(frames[n], |frames[n].pairs|, mem, log, mem', log')
    ensures Fated(frames, n + 1, m, log')
  {
    var fr := frames[n];
    SameFate(fr, m, mem);
    assert log'.Keys == log.Keys + DerivedSlots(fr);
    assert AllDerived(frames, n + 1) == AllDerived(frames, n) + DerivedSlots(fr);
    forall k, i | 0 <= k < n + 1 && 0 <= i < |frames[k].pairs| ensures HasFate(frames[k], frames[k].pairs[i], m, log') {
      if k < n {
        assert HasFate(frames[k], frames[k].pairs[i], m, log);
      }
    }
  }

  lemma UnscannedNext(frames: seq<Frame>, n: nat, m: Memory, log: map<Addr, Fate>, mem: Memory, mem': Memory,
                      log': map<Addr, Fate>)
    requires n < |frames| && SlotsApart(frames) && Fated(frames, n + 1, m, log')
    requires Unscanned(frames, n, m, mem) && WellFormed(frames[n], mem)
    requires Scanned(frames[n], |frames[n].pairs|, mem, log, mem', log')
    ensures Unscanned(frames, n + 1, m, mem')
  {
    forall k, a | n + 1 <= k < |frames| && a in DerivedSlots(frames[k]) + BaseSlots(frames[k])
      ensures a in m && mem'[a] == m[a]
    {
      assert a !in AllDerived(frames, n + 1);
    }
  }

  // ----- The table -----

  ghost predicate SlotOk(d: Addr, mem: Memory, log: map<Addr, Fate>, list: seq<Entry>)
    requires d in log
  {
    && d in mem
    && match log[d]
       case Stays(v) => mem[d] == v
       case Follows(b, offset) => mem[d] == b && b in mem && b !in log && Entry(d, offset) in list
  }

  ghost predicate EntryOk(e: Entry, log: map<Addr, Fate>) {
    e.location in log && log[e.location].Follows? && log[e.location].offset == e.offset
  }

  ghost predicate TableOk(mem: Memory, log: map<Addr, Fate>, list: seq<Entry>) {
    && (forall d :: d in log ==> SlotOk(d, mem, log, list))
    && (forall i :: 0 <= i < |list| ==> EntryOk(list[i], log))
    && (forall i, j :: 0 <= i < j < |list| ==> list[i].location != list[j].location)
  }

  /** The entry's slot has its final value, computed from the base slot it pointed at in memory m. */
  ghost predicate Updated(e: Entry, m: Memory, mem: Memory) {
    && e.location in m && m[e.location] in m && e.location in mem
    && mem[e.location] == m[m[e.location]] + e.offset
  }

  /** mem is m with the slots of the first i entries updated. */
  ghost predicate UpdatedUpto(list: seq<Entry>, i: nat, m: Memory, mem: Memory)
    requires i <= |list|
  {
    && mem.Keys == m.Keys
    && (forall j :: 0 <= j < i ==> Updated(list[j], m, mem))
    && (forall a :: a in m && (forall j :: 0 <= j < i ==> list[j].location != a) ==> mem[a] == m[a])
  }

  lemma UpdateNext(m: Memory, log: map<Addr, Fate>, list: seq<Entry>, i: nat, mem: Memory)
    requires TableOk(m, log, list) && i < |list| && UpdatedUpto(list, i, m, mem)
    ensures var a := list[i].location;
      a in mem && mem[a] in mem && UpdatedUpto(list, i + 1, m, mem[a := mem[mem[a]] + list[i].offset])
  {
    var a := list[i].location;
    assert EntryOk(list[i], log) && SlotOk(a, m, log, list);
    assert mem[a] == m[a];
    forall j | 0 <= j < i ensures list[j].location != m[a] {
      assert EntryOk(list[j], log);
    }
    var mem' := mem[a := mem[mem[a]] + list[i].offset];
    forall j | 0 <= j < i + 1 ensures Updated(list[j], m, mem') {
      assert j < i ==> Updated(list[j], m, mem);
    }
  }

  /** Once all entries are updated, each recorded slot has its base's value plus its offset, and no other changed. */
  lemma FinalSlots(m: Memory, log: map<Addr, Fate>, list: seq<Entry>, mem: Memory)
    requires TableOk(m, log, list) && UpdatedUpto(list, |list|, m, mem)
    ensures mem.Keys == m.Keys && (forall d :: d in log ==> Settled(log[d], mem, d))
    ensures forall a :: a in m && a !in log ==> mem[a] == m[a]
  {
    forall a | a in m && !(a in log && log[a].Follows?) ensures mem[a] == m[a] {
      forall j | 0 <= j < |list| ensures list[j].location != a {
        assert EntryOk(list[j], log);
      }
    }
    forall d | d in log ensures Settled(log[d], mem, d) {
      assert SlotOk(d, m, log, list);
      if log[d].Follows? {
        var j :| 0 <= j < |list| && list[j] == Entry(d, log[d].offset);
        assert Updated(list[j], m, mem);
      }
    }
  }

  class DerivedPointerTable {
    var mem: Memory
    var active: bool
    var list: seq<Entry>
    /** The fate of every derived slot scanned since the table was cleared. */
    ghost var log: map<Addr, Fate>

    /** Recorded slots point at their base slots; there is one entry for each, and no other. */
    ghost predicate Valid()
      reads this
    {
      TableOk(mem, log, list)
    }

    /** Called before a collection. */
    method Clear()
      requires !active && list == []
      modifies this`active, this`log
      ensures active && log == map[] && Valid()
    {
      active := true;
      log := map[];
    }

    /** Called for each derived slot whose base may move; ignored while the table is deactivated. */
    method Add(derivedLoc: Addr, baseLoc: Addr)
      requires Valid() && derivedLoc in mem && baseLoc in mem
      requires active ==> derivedLoc != baseLoc && derivedLoc !in log && baseLoc !in log
      requires active ==> forall d :: d in log && log[d].Follows? ==> log[d].base != derivedLoc
      modifies this`mem, this`list, this`log
      ensures Valid()
      ensures mem == if active then old(mem)[derivedLoc := baseLoc] else old(mem)
      ensures log == if active then old(log)[derivedLoc := Follows(baseLoc, old(mem[derivedLoc]) - old(mem[baseLoc]))]
        else old(log)
    {
      if active {
        var offset := mem[derivedLoc] - mem[baseLoc];
        mem := mem[derivedLoc := baseLoc];
        list := [Entry(derivedLoc, offset)] + list;
        log := log[derivedLoc := Follows(baseLoc, offset)];
        forall d | d in log ensures SlotOk(d, mem, log, list) {
          if d != derivedLoc {
            assert SlotOk(d, old(mem), old(log), old(list));
            if log[d].Follows? {
              var i :| 0 <= i < |old(list)| && old(list)[i] == Entry(d, log[d].offset);
              assert list[i + 1] == Entry(d, log[d].offset);
            }
          } else {
            assert list[0] == Entry(d, offset);
          }
        }
      }
    }

    /** One derived entry: record it, unless its base is null or will not move. */
    method ScanPair(fr: Frame, p: Pair)
      requires Valid() && active && p.derived in mem && p.derived !in log
      requires p.base.Some? ==> p.base.value in mem && p.base.value !in log && p.base.value != p.derived
      requires forall d :: d in log && log[d].Follows? ==> log[d].base != p.derived
      modifies this`mem, this`list, this`log
      ensures Valid() && mem.Keys == old(mem).Keys
      ensures log == old(log)[p.derived := FateOf(fr, p, old(mem))]
      ensures forall a :: a in mem && a != p.derived ==> mem[a] == old(mem)[a]
    {
      if p.base.Some? && mem[p.base.value] != 0 && mem[p.base.value] != fr.narrowBase
         && !(fr.sp <= mem[p.base.value] < fr.top) {
        Add(p.derived, p.base.value);
      } else {
        log := log[p.derived := Stays(mem[p.derived])];
        forall d | d in log ensures SlotOk(d, mem, log, list) {
          assert d != p.derived ==> SlotOk(d, old(mem), old(log), old(list));
        }
      }
    }

    /** The first loop of all_do: record the frame's derived pointers before any base is changed. */
    method ScanDerived(fr: Frame)
      requires Valid() && active && WellFormed(fr, mem) && Apart(fr, log)
      modifies this`mem, this`list, this`log
      ensures Valid() && Scanned(fr, |fr.pairs|, old(mem), old(log), mem, log)
    {
      var i := 0;
      while i < |fr.pairs|
        invariant 0 <= i <= |fr.pairs| && Valid() && Scanned(fr, i, old(mem), old(log), mem, log)
      {
        FreshPair(fr, i, old(mem), old(log), mem, log);
        ghost var mem0, log0 := mem, log;
        ScanPair(fr, fr.pairs[i]);
        ScannedNext(fr, i, old(mem), old(log), mem0, log0, mem);
        i := i + 1;
      }
    }

    /** The collector moves objects: any slots but the recorded derived ones get new values. */
    method Relocate(moves: Memory)
      requires Valid() && moves.Keys !! log.Keys
      modifies this`mem
      ensures Valid() && mem == old(mem) + moves
    {
      mem := mem + moves;
      forall d | d in log ensures SlotOk(d, mem, log, list) {
        assert SlotOk(d, old(mem), old(log), old(list));
      }
    }

    /** Called after a collection. */
    method UpdatePointers()
      requires Valid()
      modifies this`mem, this`list, this`active
      ensures !active && list == [] && mem.Keys == old(mem).Keys
      ensures forall a :: a in old(mem) && a !in log ==> mem[a] == old(mem)[a]
      ensures forall d :: d in log ==> Settled(log[d], mem, d)
    {
      ghost var mem0 := mem;
      var entries := list;
      list := [];
      var i := 0;
      while i < |entries|
        invariant 0 <= i <= |entries| && UpdatedUpto(entries, i, mem0, mem) && list == []
      {
        var e := entries[i];
        UpdateNext(mem0, log, entries, i, mem);
        var base := mem[mem[e.location]];
        mem := mem[e.location := base + e.offset];
        i := i + 1;
      }
      active := false;
      FinalSlots(mem0, log, entries, mem);
    }

    /** The first n frames are scanned and their moves made. */
    ghost predicate Going(frames: seq<Frame>, moves: seq<Memory>, n: nat, m: Memory)
      reads this
      requires |moves| == |frames| && n <= |frames|
    {
      && active && Valid() && Fated(frames, n, m, log) && Unscanned(frames, n, m, mem)
      && Elsewhere(AfterMoves(m, moves, n), mem, log)
    }

    /** One frame is scanned. */
    method ScanFrame(frames: seq<Frame>, n: nat, ghost m: Memory)
      requires n < |frames| && WellFormed(frames[n], m) && SlotsApart(frames)
      requires active && Valid() && Fated(frames, n, m, log) && Unscanned(frames, n, m, mem)
      modifies this
      ensures active && Valid() && Fated(frames, n + 1, m, log) && Unscanned(frames, n + 1, m, mem)
      ensures old(log).Keys <= log.Keys && Elsewhere(old(mem), mem, log)
    {
      SameFate(frames[n], m, mem);
      NextIsApart(frames, n, m, log);
      ghost var mem0, log0 := mem, log;
      ScanDerived(frames[n]);
      FatedNext(frames, n, m, log0, mem0, mem, log);
      UnscannedNext(frames, n, m, log0, mem0, mem, log);
    }

    method ScanAndMove(frames: seq<Frame>, moves: seq<Memory>, n: nat, ghost m: Memory)
      requires n < |frames| && WellFormed(frames[n], m) && SlotsApart(frames) && MovesAllowed(frames, moves, m)
      requires Going(frames, moves, n, m)
      modifies this
      ensures Going(frames, moves, n + 1, m)
    {
      ghost var mem0, log0 := mem, log;
      ScanFrame(frames, n, m);
      SparesLog(frames, moves, m, n, log);
      UnscannedMoved(frames, moves, n, m, mem);
      ElsewhereMoved(AfterMoves(m, moves, n), mem0, log0, mem, log, moves[n]);
      Relocate(moves[n]);
    }

    /**
     * Derived pointers survive a collection: clear, scan the frames while objects
     * move, update.  Each derived slot ends at its base's new value plus its old
     * offset if the base could move, and is unchanged otherwise; all other slots
     * hold what the moves put there.
     */
    method Collect(frames: seq<Frame>, moves: seq<Memory>)
      requires !active && list == []
      requires (forall k :: 0 <= k < |frames| ==> WellFormed(frames[k], mem)) && SlotsApart(frames)
      requires MovesAllowed(frames, moves, mem)
      modifies this
      ensures !active && list == [] && mem.Keys == old(mem).Keys
      ensures forall k, i :: 0 <= k < |frames| && 0 <= i < |frames[k].pairs| ==>
        Settled(FateOf(frames[k], frames[k].pairs[i], old(mem)), mem, frames[k].pairs[i].derived)
      ensures forall k, i :: 0 <= k < |frames| && 0 <= i < |frames[k].pairs| ==>
        KeepsOffset(frames[k], frames[k].pairs[i], old(mem), mem)
      ensures forall a :: a in mem && a !in AllDerived(frames, |frames|) ==>
        mem[a] == At(AfterMoves(old(mem), moves, |moves|), a)
    {
      ghost var m := mem;
      Clear();
      var n := 0;
      while n < |frames|
        invariant 0 <= n <= |frames| && Going(frames, moves, n, m)
      {
        ScanAndMove(frames, moves, n, m);
        n := n + 1;
      }
      ghost var mem0 := mem;
      UpdatePointers();
      AllSettled(frames, m, log, mem);
      OffsetsKept(frames, m, mem);
      ElsewhereUpdated(AfterMoves(m, moves, |moves|), mem0, mem, log);
    }
  }

  /** Slots that are not recorded hold what they hold in m. */
  ghost predicate Elsewhere(m: Memory, mem: Memory, log: map<Addr, Fate>) {
    m.Keys == mem.Keys && forall a :: a in mem && a !in log ==> mem[a] == m[a]
  }

  lemma AllSettled(frames: seq<Frame>, m: Memory, log: map<Addr, Fate>, mem: Memory)
    requires Fated(frames, |frames|, m, log) && forall d :: d in log ==> Settled(log[d], mem, d)
    ensures forall k, i :: 0 <= k < |frames| && 0 <= i < |frames[k].pairs| ==>
      Settled(FateOf(frames[k], frames[k].pairs[i], m), mem, frames[k].pairs[i].derived)
  {
    forall k, i | 0 <= k < |frames| && 0 <= i < |frames[k].pairs|
      ensures Settled(FateOf(frames[k], frames[k].pairs[i], m), mem, frames[k].pairs[i].derived)
    {
      assert HasFate(frames[k], frames[k].pairs[i], m, log);
    }
  }

  /**
   * A derived pointer stays as far from its base as it was, if its base holds a heap reference, and keeps its value
   * otherwise.
   */
  ghost predicate KeepsOffset(fr: Frame, p: Pair, m: Memory, mem: Memory) {
    && p.derived in m && p.derived in mem
    && match p.base
       case None => mem[p.derived] == m[p.derived]
       case Some(b) =>
         b in m && b in mem &&
         if m[b] == 0 || m[b] == fr.narrowBase || fr.sp <= m[b] < fr.top then mem[p.derived] == m[p.derived]
         else mem[p.derived] - mem[b] == m[p.derived] - m[b]
  }

  lemma OffsetsKept(frames: seq<Frame>, m: Memory, mem: Memory)
    requires (forall k :: 0 <= k < |frames| ==> WellFormed(frames[k], m)) && mem.Keys == m.Keys
    requires forall k, i :: 0 <= k < |frames| && 0 <= i < |frames[k].pairs| ==>
      Settled(FateOf(frames[k], frames[k].pairs[i], m), mem, frames[k].pairs[i].derived)
    ensures forall k, i :: 0 <= k < |frames| && 0 <= i < |frames[k].pairs| ==>
      KeepsOffset(frames[k], frames[k].pairs[i], m, mem)
  {
    forall k, i | 0 <= k < |frames| && 0 <= i < |frames[k].pairs|
      ensures KeepsOffset(frames[k], frames[k].pairs[i], m, mem)
    {
      assert WellFormed(frames[k], m);
      assert Settled(FateOf(frames[k], frames[k].pairs[i], m), mem, frames[k].pairs[i].derived);
    }
  }

  lemma ElsewhereUpdated(m: Memory, mem0: Memory, mem: Memory, log: map<Addr, Fate>)
    requires Elsewhere(m, mem0, log) && mem.Keys == mem0.Keys &&
      forall a :: a in mem0 && a !in log ==> mem[a] == mem0[a]
    ensures Elsewhere(m, mem, log)
  {
  }

  lemma ElsewhereMoved(m: Memory, mem0: Memory, log0: map<Addr, Fate>, mem: Memory, log: map<Addr, Fate>, moves: Memory)
    requires Elsewhere(m, mem0, log0) && Elsewhere(mem0, mem, log) && log0.Keys <= log.Keys
    ensures Elsewhere(m + moves, mem + moves, log)
  {
  }

  lemma UnscannedMoved(frames: seq<Frame>, moves: seq<Memory>, n: nat, m: Memory, mem: Memory)
    requires n < |frames| && MovesAllowed(frames, moves, m) && Unscanned(frames, n + 1, m, mem)
    ensures Unscanned(frames, n + 1, m, mem + moves[n])
  {
    forall k, a | n + 1 <= k < |frames| && a in DerivedSlots(frames[k]) + BaseSlots(frames[k])
      ensures a in m && (mem + moves[n])[a] == m[a]
    {
      assert moves[n].Keys !! DerivedSlots(frames[k]) && moves[n].Keys !! BaseSlots(frames[k]);
    }
  }

  lemma SparesLog(frames: seq<Frame>, moves: seq<Memory>, m: Memory, n: nat, log: map<Addr, Fate>)
    requires MovesAllowed(frames, moves, m) && n < |frames| && Fated(frames, n + 1, m, log)
    ensures moves[n].Keys !! log.Keys
  {
  }

  /** Slot d of the final memory is what its fate says. */
  ghost predicate Settled(fate: Fate, mem: Memory, d: Addr) {
    d in mem && match fate
      case Stays(v) => mem[d] == v
      case Follows(b, offset) => b in mem && mem[d] == mem[b] + offset
  }
}
