/**
 * The immutable form of a set of oop maps (compiler/oopMap.cpp, ImmutableOopMapBuilder):
 * one buffer that holds a header, a pair for every map, and the maps themselves, with
 * empty maps and repeated maps stored once.
 */
module ImmutableOopMaps {
  import opened Wrappers
  import opened OopMapValues

  /** A finished OopMap: its pc offset, number of entries and written data. */
  datatype Map = Map(pc: int, count: nat, data: seq<int>)

  datatype Kind = New | Empty | Duplicate
  datatype Mapping = Mapping(kind: Kind, offset: nat, size: nat)

  const SIZEOF_MAP: nat := 4
  const SIZEOF_SET: nat := 8
  const SIZEOF_PAIR: nat := 8
  /** Where the second word of a set or a pair is. */
  const SECOND: nat := 4
  const GUARD: nat := 8
  const GUARD_VALUE: int := 0xff

  function AlignUp(n: nat): (r: nat)
    ensures n <= r < n + 8 && r % 8 == 0
  {
    (n + 7) / 8 * 8
  }

  function SizeFor(m: Map): (r: nat)
    ensures r % 8 == 0 && SIZEOF_MAP + |m.data| <= r
  {
    AlignUp(SIZEOF_MAP + |m.data|)
  }

  /** equals */
  predicate Equals(a: Map, b: Map) {
    a.count == b.count && a.data == b.data
  }

  /** A map without entries has no data. */
  ghost predicate MapsOk(maps: seq<Map>) {
    forall i :: 0 <= i < |maps| && maps[i].count == 0 ==> maps[i].data == []
  }

  // ----- The plan: where each map goes -----

  ghost predicate NewAt(maps: seq<Map>, mapping: seq<Mapping>, i: nat) {
    i < |mapping| <= |maps| && mapping[i].kind.New?
  }

  ghost predicate RangeOk(maps: seq<Map>, mapping: seq<Mapping>, offset: nat, i: nat) {
    NewAt(maps, mapping, i) ==>
      mapping[i].offset % 8 == 0 && mapping[i].size == SizeFor(maps[i]) && mapping[i].offset + mapping[i].size <= offset
  }

  ghost predicate InOrder(maps: seq<Map>, mapping: seq<Mapping>, i: nat, j: nat) {
    NewAt(maps, mapping, i) && NewAt(maps, mapping, j) && i < j ==>
      mapping[i].offset + mapping[i].size <= mapping[j].offset
  }

  /** Map i is stored where map j is, and is equal to it. */
  ghost predicate HomeIs(maps: seq<Map>, mapping: seq<Mapping>, i: nat, j: nat) {
    i < |mapping| <= |maps| && j <= i && NewAt(maps, mapping, j) && mapping[j].offset == mapping[i].offset &&
      Equals(maps[j], maps[i])
  }

  ghost predicate HasHome(maps: seq<Map>, mapping: seq<Mapping>, i: nat) {
    exists j: nat :: HomeIs(maps, mapping, i, j)
  }

  /** New maps have aligned ranges of their own below offset; every other map shares the range of an equal one. */
  ghost predicate PlanOk(maps: seq<Map>, mapping: seq<Mapping>, offset: nat) {
    && |mapping| <= |maps| && offset % 8 == 0
    && (forall i: nat :: RangeOk(maps, mapping, offset, i))
    && (forall i: nat, j: nat :: InOrder(maps, mapping, i, j))
    && (forall i: nat :: i < |mapping| ==> HasHome(maps, mapping, i))
  }

  lemma HomeStays(maps: seq<Map>, mapping: seq<Mapping>, m: Mapping, i: nat)
    requires |mapping| < |maps| && i < |mapping| && HasHome(maps, mapping, i)
    ensures HasHome(maps, mapping + [m], i)
  {
    var j: nat :| HomeIs(maps, mapping, i, j);
    assert HomeIs(maps, mapping + [m], i, j);
  }

  lemma PlanNewRanges(maps: seq<Map>, mapping: seq<Mapping>, offset: nat, mapping': seq<Mapping>, offset': nat)
    requires PlanOk(maps, mapping, offset) && |mapping| < |maps| && offset' == offset + SizeFor(maps[|mapping|])
    requires mapping' == mapping + [Mapping(New, offset, SizeFor(maps[|mapping|]))]
    ensures forall i: nat :: RangeOk(maps, mapping', offset', i)
    ensures forall i: nat, j: nat :: InOrder(maps, mapping', i, j)
  {
    forall i: nat ensures RangeOk(maps, mapping', offset', i) {
      assert RangeOk(maps, mapping, offset, i);
    }
    forall i: nat, j: nat ensures InOrder(maps, mapping', i, j) {
      assert InOrder(maps, mapping, i, j) && RangeOk(maps, mapping, offset, i);
    }
  }

  lemma PlanNew(maps: seq<Map>, mapping: seq<Mapping>, offset: nat)
    requires PlanOk(maps, mapping, offset) && |mapping| < |maps|
    ensures var size := SizeFor(maps[|mapping|]); PlanOk(maps, mapping + [Mapping(New, offset, size)], offset + size)
  {
    PlanNewRanges(maps, mapping, offset, mapping + [Mapping(New, offset, SizeFor(maps[|mapping|]))],
                  offset + SizeFor(maps[|mapping|]));
    var m := Mapping(New, offset, SizeFor(maps[|mapping|]));
    forall i: nat | i < |mapping| + 1 ensures HasHome(maps, mapping + [m], i) {
      if i < |mapping| {
        HomeStays(maps, mapping, m, i);
      } else {
        assert HomeIs(maps, mapping + [m], i, i);
      }
    }
  }

  lemma PlanShared(maps: seq<Map>, mapping: seq<Mapping>, offset: nat, kind: Kind, home: nat)
    requires PlanOk(maps, mapping, offset) && |mapping| < |maps| && !kind.New?
    requires home < |mapping| && mapping[home].kind.New? && Equals(maps[home], maps[|mapping|])
    ensures PlanOk(maps, mapping + [Mapping(kind, mapping[home].offset, 0)], offset)
  {
    var m := Mapping(kind, mapping[home].offset, 0);
    var mapping' := mapping + [m];
    forall i: nat ensures RangeOk(maps, mapping', offset, i) {
      assert RangeOk(maps, mapping, offset, i);
    }
    forall i: nat, j: nat ensures InOrder(maps, mapping', i, j) {
      assert InOrder(maps, mapping, i, j);
    }
    forall i: nat | i < |mapping'| ensures HasHome(maps, mapping', i) {
      if i < |mapping| {
        HomeStays(maps, mapping, m, i);
      } else {
        assert HomeIs(maps, mapping', i, home);
      }
    }
  }

  // ----- The buffer -----

  function PairAddr(i: nat): nat {
    SIZEOF_SET + SIZEOF_PAIR * i
  }

  /** data(): where the maps start. */
  function DataAddr(n: nat): nat {
    SIZEOF_SET + SIZEOF_PAIR * n
  }

  ghost predicate PairIs(buf: seq<int>, i: nat, pc: int, off: nat) {
    PairAddr(i) + SIZEOF_PAIR <= |buf| && buf[PairAddr(i)] == pc && buf[PairAddr(i) + SECOND] == off
  }

  ghost predicate MapIs(buf: seq<int>, addr: nat, m: Map) {
    && addr + SIZEOF_MAP + |m.data| <= |buf|
    && buf[addr] == m.count
    && forall k :: 0 <= k < |m.data| ==> buf[addr + SIZEOF_MAP + k] == m.data[k]
  }

  /** Map i has its pair, and its data if it has a range of its own. */
  ghost predicate FilledAt(maps: seq<Map>, mapping: seq<Mapping>, buf: seq<int>, i: nat) {
    i < |mapping| == |maps| ==>
      && PairIs(buf, i, maps[i].pc, mapping[i].offset)
      && (mapping[i].kind.New? ==> MapIs(buf, DataAddr(|maps|) + mapping[i].offset, maps[i]))
  }

  ghost predicate Filled(maps: seq<Map>, mapping: seq<Mapping>, buf: seq<int>, n: nat) {
    forall i: nat :: i < n ==> FilledAt(maps, mapping, buf, i)
  }

  /** The cells that storing map i may change. */
  ghost predicate Own(maps: seq<Map>, mapping: seq<Mapping>, i: nat, c: nat)
    requires i < |mapping| == |maps|
  {
    || PairAddr(i) <= c < PairAddr(i) + SIZEOF_PAIR
    || (mapping[i].kind.New? && DataAddr(|maps|) + mapping[i].offset <= c < DataAddr(|maps|) + mapping[i].offset +
      mapping[i].size)
  }

  ghost predicate ChangedOnly(maps: seq<Map>, mapping: seq<Mapping>, i: nat, buf: seq<int>, buf': seq<int>)
    requires i < |mapping| == |maps|
  {
    |buf'| == |buf| && forall c: nat :: c < |buf| && !Own(maps, mapping, i, c) ==> buf'[c] == buf[c]
  }

  /** Distinct maps have disjoint cells. */
  lemma OwnApart(maps: seq<Map>, mapping: seq<Mapping>, offset: nat, i: nat, j: nat, c: nat)
    requires |mapping| == |maps| && PlanOk(maps, mapping, offset) && i < j < |maps|
    ensures !(Own(maps, mapping, i, c) && Own(maps, mapping, j, c))
  {
    assert InOrder(maps, mapping, i, j) && RangeOk(maps, mapping, offset, i) && RangeOk(maps, mapping, offset, j);
  }

  /** Neither the header nor the guard belongs to a map. */
  lemma OwnInside(maps: seq<Map>, mapping: seq<Mapping>, offset: nat, i: nat, c: nat)
    requires |mapping| == |maps| && PlanOk(maps, mapping, offset) && i < |maps| && Own(maps, mapping, i, c)
    ensures SIZEOF_SET <= c < DataAddr(|maps|) + offset
  {
    assert RangeOk(maps, mapping, offset, i);
  }

  /** What map i needs is in its own cells, so it survives the storing of a later map. */
  lemma FilledStays(maps: seq<Map>, mapping: seq<Mapping>, offset: nat, buf: seq<int>, buf': seq<int>, i: nat, j: nat)
    requires |mapping| == |maps| && PlanOk(maps, mapping, offset) && i < j < |maps|
    requires FilledAt(maps, mapping, buf, i) && ChangedOnly(maps, mapping, j, buf, buf')
    ensures FilledAt(maps, mapping, buf', i)
  {
    assert RangeOk(maps, mapping, offset, i);
    forall c: nat | c < |buf| && Own(maps, mapping, i, c) ensures buf'[c] == buf[c] {
      OwnApart(maps, mapping, offset, i, j, c);
    }
    assert Own(maps, mapping, i, PairAddr(i)) && Own(maps, mapping, i, PairAddr(i) + SECOND);
    if mapping[i].kind.New? {
      var addr := DataAddr(|maps|) + mapping[i].offset;
      assert Own(maps, mapping, i, addr);
      forall k | 0 <= k < |maps[i].data| ensures buf'[addr + SIZEOF_MAP + k] == maps[i].data[k] {
        assert Own(maps, mapping, i, addr + SIZEOF_MAP + k);
      }
    }
  }

  ghost predicate Framed(buf: seq<int>, n: nat) {
    && |buf| >= SIZEOF_SET + GUARD && buf[0] == n && buf[SECOND] == |buf|
    && forall c :: |buf| - GUARD <= c < |buf| ==> buf[c] == GUARD_VALUE
  }

  lemma FramedStays(maps: seq<Map>, mapping: seq<Mapping>, offset: nat, buf: seq<int>, buf': seq<int>, i: nat)
    requires |mapping| == |maps| && PlanOk(maps, mapping, offset) && i < |maps|
    requires |buf| == DataAddr(|maps|) + offset + GUARD
    requires Framed(buf, |maps|) && ChangedOnly(maps, mapping, i, buf, buf')
    ensures Framed(buf', |maps|)
  {
    forall c: nat | c < |buf| && !(SIZEOF_SET <= c < DataAddr(|maps|) + offset) ensures buf'[c] == buf[c] {
      if Own(maps, mapping, i, c) {
        OwnInside(maps, mapping, offset, i, c);
      }
    }
  }

  /** Map m can be found in the buffer: its pair leads to its count and data. */
  ghost predicate Stored(buf: seq<int>, n: nat, i: nat, m: Map) {
    exists off: nat :: PairIs(buf, i, m.pc, off) && off % 8 == 0 && MapIs(buf, DataAddr(n) + off, m)
  }

  /** All maps have been stored, shared or not. */
  lemma FilledIsStored(maps: seq<Map>, mapping: seq<Mapping>, offset: nat, buf: seq<int>, i: nat)
    requires |mapping| == |maps| && PlanOk(maps, mapping, offset) && Filled(maps, mapping, buf, |maps|) && i < |maps|
    ensures Stored(buf, |maps|, i, maps[i])
  {
    assert HasHome(maps, mapping, i);
    var j: nat :| HomeIs(maps, mapping, i, j);
    assert FilledAt(maps, mapping, buf, i) && FilledAt(maps, mapping, buf, j) && RangeOk(maps, mapping, offset, j);
    assert PairIs(buf, i, maps[i].pc, mapping[i].offset);
  }

  /** The finished buffer: header and guard are in place and every map can be found. */
  ghost predicate Built(buf: seq<int>, maps: seq<Map>) {
    Framed(buf, |maps|) && forall i: nat :: i < |maps| ==> Stored(buf, |maps|, i, maps[i])
  }

  ghost predicate Increasing(maps: seq<Map>) {
    forall i, j :: 0 <= i < j < |maps| ==> maps[i].pc < maps[j].pc
  }

  /** find_map_at_offset: the address of the map of the first pair whose pc offset is not below pc. */
  method FindMapAtOffset(buf: seq<int>, pc: int, ghost maps: seq<Map>) returns (addr: Option<nat>)
    requires Built(buf, maps)
    ensures addr.None? <==> forall i :: 0 <= i < |maps| ==> maps[i].pc < pc
    ensures Increasing(maps) ==> forall i :: 0 <= i < |maps| && maps[i].pc == pc ==>
      addr.Some? && MapIs(buf, addr.value, maps[i])
  {
    var i := 0;
    while i < buf[0]
      invariant 0 <= i <= |maps|
      invariant forall j :: 0 <= j < i ==> maps[j].pc < pc
    {
      assert Stored(buf, |maps|, i, maps[i]);
      ghost var off: nat :| PairIs(buf, i, maps[i].pc, off) && off % 8 == 0 &&
        MapIs(buf, DataAddr(|maps|) + off, maps[i]);
      if buf[PairAddr(i)] >= pc {
        return Some(DataAddr(buf[0]) + buf[PairAddr(i) + SECOND]);
      }
      i := i + 1;
    }
    addr := None;
  }

  ghost predicate Encodes(m: Map, es: seq<OopMapValue>) {
    m.count == |es| && m.data == EncodeAll(es) && ShortsOnly(es)
  }

  /** The entries of the map at pc, read from the buffer: those that were put into it, in order. */
  method EntriesAt(buf: seq<int>, pc: int, ghost maps: seq<Map>, ghost i: nat, ghost es: seq<OopMapValue>)
    returns (r: seq<OopMapValue>)
    requires Built(buf, maps) && Increasing(maps) && i < |maps| && maps[i].pc == pc && Encodes(maps[i], es)
    ensures SameAll(es, r)
  {
    var addr := FindMapAtOffset(buf, pc, maps);
    assert MapIs(buf, addr.value, maps[i]);
    assert buf[addr.value + SIZEOF_MAP..addr.value + SIZEOF_MAP + |EncodeAll(es)|] == EncodeAll(es);
    r := ReadEntries(buf, addr.value + SIZEOF_MAP, buf[addr.value], es);
  }

  // ----- Sharing -----

  /** The first empty map before map i. */
  ghost function FirstEmpty(maps: seq<Map>, i: nat): (r: Option<nat>)
    requires i <= |maps|
    ensures r.Some? ==> r.value < i && maps[r.value].count == 0 && forall k :: 0 <= k < r.value ==> maps[k].count > 0
    ensures r.None? ==> forall k :: 0 <= k < i ==> maps[k].count > 0
  {
    if i == 0 then None
    else if FirstEmpty(maps, i - 1).Some? then FirstEmpty(maps, i - 1)
    else if maps[i - 1].count == 0 then Some(i - 1) else None
  }

  /** The last map before map i that is not empty. */
  ghost function LastFull(maps: seq<Map>, i: nat): (r: Option<nat>)
    requires i <= |maps|
    ensures r.Some? ==> r.value < i && maps[r.value].count > 0 && forall k :: r.value < k < i ==> maps[k].count == 0
    ensures r.None? ==> forall k :: 0 <= k < i ==> maps[k].count == 0
  {
    if i == 0 then None else if maps[i - 1].count > 0 then Some(i - 1) else LastFull(maps, i - 1)
  }

  /** The map whose range map i shares: the first empty one, or the last full one before it if that is the same. */
  ghost function Twin(maps: seq<Map>, i: nat): (r: Option<nat>)
    requires i < |maps|
    ensures r.Some? ==> r.value < i
  {
    if maps[i].count == 0 then FirstEmpty(maps, i)
    else
      var j := LastFull(maps, i);
      if j.Some? && maps[j.value].count == maps[i].count && maps[j.value].data == maps[i].data then j else None
  }

  /** Map i shares the range of its twin, and has one of its own if it has none. */
  ghost predicate SharesAt(maps: seq<Map>, mapping: seq<Mapping>, i: nat) {
    i < |mapping| <= |maps| ==>
      match Twin(maps, i)
      case None => mapping[i].kind.New?
      case Some(j) => !mapping[i].kind.New? && mapping[i].size == 0 && mapping[i].offset == mapping[j].offset
  }

  lemma SharesStay(maps: seq<Map>, mapping: seq<Mapping>, m: Mapping, i: nat)
    requires |mapping| < |maps| && SharesAt(maps, mapping, i) && i < |mapping|
    ensures SharesAt(maps, mapping + [m], i)
  {
  }

  /** How many bytes the ranges take up. */
  ghost function Bytes(mapping: seq<Mapping>): nat {
    if mapping == [] then 0 else Bytes(mapping[..|mapping| - 1]) + mapping[|mapping| - 1].size
  }

  lemma BytesMore(mapping: seq<Mapping>, m: Mapping)
    ensures Bytes(mapping + [m]) == Bytes(mapping) + m.size
  {
    assert (mapping + [m])[..|mapping|] == mapping;
  }

  /** What is remembered of the first i maps: where the empty one is, and which one is the last that is not empty. */
  ghost predicate Remembers(maps: seq<Map>, mapping: seq<Mapping>, emptyOffset: Option<nat>, last: Option<Map>,
                            lastOffset: nat, i: nat)
  {
    && i == |mapping| <= |maps|
    && (match FirstEmpty(maps, i)
        case None => emptyOffset.None?
        case Some(j) => emptyOffset == Some(mapping[j].offset))
    && (match LastFull(maps, i)
        case None => last.None?
        case Some(j) => last.Some? && last.value.count == maps[j].count && last.value.data == maps[j].data &&
                        lastOffset == mapping[j].offset)
  }

  ghost predicate IsTracked(maps: seq<Map>, mapping: seq<Mapping>, emptyOffset: Option<nat>, last: Option<Map>,
                            lastOffset: nat, offset: nat)
  {
    && |mapping| <= |maps| && offset == Bytes(mapping)
    && Remembers(maps, mapping, emptyOffset, last, lastOffset, |mapping|) && forall j: nat :: SharesAt(maps, mapping, j)
  }

  /** Sharing is as it should be, and remembered for the next map.  (Folded: it opens where IsTracked is mentioned.) */
  ghost predicate Tracked(maps: seq<Map>, mapping: seq<Mapping>, emptyOffset: Option<nat>, last: Option<Map>,
                          lastOffset: nat, offset: nat)
  {
    forall m: seq<Mapping> :: m == mapping ==> IsTracked(maps, m, emptyOffset, last, lastOffset, offset)
  }

  /** An empty map is next. */
  lemma TrackedEmpty(maps: seq<Map>, mapping: seq<Mapping>, emptyOffset: Option<nat>, last: Option<Map>,
                     lastOffset: nat, offset: nat, m: Mapping)
    requires Tracked(maps, mapping, emptyOffset, last, lastOffset, offset) && |mapping| < |maps|
    requires maps[|mapping|].count == 0
    requires if emptyOffset.Some? then m == Mapping(Empty, emptyOffset.value, 0) else m.kind.New?
    ensures Tracked(maps, mapping + [m], Some(m.offset), last, lastOffset, offset + m.size)
  {
    assert IsTracked(maps, mapping, emptyOffset, last, lastOffset, offset);
    BytesMore(mapping, m);
    SharesStayAll(maps, mapping, m);
  }

  /** A map that is not empty is next. */
  lemma TrackedFull(maps: seq<Map>, mapping: seq<Mapping>, emptyOffset: Option<nat>, last: Option<Map>,
                    lastOffset: nat, offset: nat, m: Mapping, last': Map)
    requires Tracked(maps, mapping, emptyOffset, last, lastOffset, offset) && |mapping| < |maps|
    requires var map_ := maps[|mapping|];
      && map_.count > 0 && last'.count == map_.count && last'.data == map_.data
      && if last.Some? && last.value.count == map_.count && last.value.data == map_.data
         then m == Mapping(Duplicate, lastOffset, 0) else m.kind.New?
    ensures Tracked(maps, mapping + [m], emptyOffset, Some(last'), m.offset, offset + m.size)
  {
    assert IsTracked(maps, mapping, emptyOffset, last, lastOffset, offset);
    BytesMore(mapping, m);
    SharesStayAll(maps, mapping, m);
  }

  lemma SharesStayAll(maps: seq<Map>, mapping: seq<Mapping>, m: Mapping)
    requires |mapping| < |maps| && forall j: nat :: SharesAt(maps, mapping, j)
    ensures forall j: nat :: j < |mapping| ==> SharesAt(maps, mapping + [m], j)
  {
    forall j: nat | j < |mapping| ensures SharesAt(maps, mapping + [m], j) {
      SharesStay(maps, mapping, m, j);
    }
  }

  class ImmutableOopMapBuilder {
    const maps: seq<Map>
    var last: Option<Map>
    var emptyOffset: Option<nat>
    var lastOffset: nat
    var offset: nat
    var mapping: seq<Mapping>
    var required: nat
    /** Which maps are the stored empty one and the last stored one. */
    ghost var emptyAt: nat
    ghost var lastAt: nat

    constructor (maps: seq<Map>)
      ensures this.maps == maps && Planned(0)
    {
      this.maps := maps;
      last, emptyOffset, lastOffset, offset, mapping, required := None, None, 0, 0, [], 0;
    }

    ghost predicate IsNew(i: nat, off: nat)
      reads this
    {
      i < |mapping| <= |maps| && mapping[i].kind.New? && mapping[i].offset == off
    }

    /** The first i maps have their places. */
    ghost predicate Planned(i: nat)
      reads this
    {
      && |mapping| == i && PlanOk(maps, mapping, offset)
      && Tracked(maps, mapping, emptyOffset, last, lastOffset, offset)
      && (emptyOffset.Some? ==> IsNew(emptyAt, emptyOffset.value) && maps[emptyAt].count == 0)
      && (last.Some? ==> IsNew(lastAt, lastOffset) && maps[lastAt] == last.value)
    }

    /** One step of heap_size: empty maps share one place, a map equal to the last stored one shares its place. */
    method Place(i: nat)
      requires Planned(i) && i < |maps| && MapsOk(maps)
      modifies this
      ensures Planned(i + 1)
    {
      var map_ := maps[i];
      if map_.count == 0 {
        if emptyOffset.Some? {
          var m := Mapping(Empty, emptyOffset.value, 0);
          PlanShared(maps, mapping, offset, Empty, emptyAt);
          TrackedEmpty(maps, mapping, emptyOffset, last, lastOffset, offset, m);
          mapping := mapping + [m];
        } else {
          var m := Mapping(New, offset, SizeFor(map_));
          PlanNew(maps, mapping, offset);
          TrackedEmpty(maps, mapping, emptyOffset, last, lastOffset, offset, m);
          emptyOffset, emptyAt := Some(offset), i;
          mapping := mapping + [m];
          offset := offset + SizeFor(map_);
        }
      } else if last.Some? && last.value.count > 0 && Equals(last.value, map_) {
        var m := Mapping(Duplicate, lastOffset, 0);
        PlanShared(maps, mapping, offset, Duplicate, lastAt);
        TrackedFull(maps, mapping, emptyOffset, last, lastOffset, offset, m, last.value);
        mapping := mapping + [m];
      } else {
        var m := Mapping(New, offset, SizeFor(map_));
        PlanNew(maps, mapping, offset);
        TrackedFull(maps, mapping, emptyOffset, last, lastOffset, offset, m, map_);
        mapping := mapping + [m];
        lastOffset, last, lastAt := offset, Some(map_), i;
        offset := offset + SizeFor(map_);
      }
    }

    method HeapSize() returns (total: nat)
      requires Planned(0) && MapsOk(maps)
      modifies this
      ensures Planned(|maps|) && total == required == SIZEOF_SET + SIZEOF_PAIR * |maps| + offset + GUARD
      ensures offset == Bytes(mapping) && forall i: nat :: SharesAt(maps, mapping, i)
    {
      for i := 0 to |maps|
        invariant Planned(i)
      {
        Place(i);
      }
      assert IsTracked(maps, mapping, emptyOffset, last, lastOffset, offset);
      total := AlignUp(SIZEOF_SET) + AlignUp(|maps| * SIZEOF_PAIR) + offset + GUARD;
      required := total;
    }

    method FillPair(buf: array<int>, i: nat)
      requires i < |mapping| == |maps| && PairAddr(i) + SIZEOF_PAIR <= buf.Length
      modifies buf
      ensures PairIs(buf[..], i, maps[i].pc, mapping[i].offset)
      ensures forall c :: 0 <= c < buf.Length && !(PairAddr(i) <= c < PairAddr(i) + SIZEOF_PAIR) ==>
        buf[c] == old(buf[c])
    {
      buf[PairAddr(i)] := maps[i].pc;
      buf[PairAddr(i) + SECOND] := mapping[i].offset;
    }

    /** The ImmutableOopMap constructor at addr. */
    method StoreMap(buf: array<int>, addr: nat, m: Map)
      requires addr + SIZEOF_MAP + |m.data| <= buf.Length
      modifies buf
      ensures MapIs(buf[..], addr, m)
      ensures forall c :: 0 <= c < buf.Length && !(addr <= c < addr + SIZEOF_MAP + |m.data|) ==> buf[c] == old(buf[c])
    {
      buf[addr] := m.count;
      var k := 0;
      while k < |m.data|
        invariant 0 <= k <= |m.data| && buf[addr] == m.count
        invariant forall j :: 0 <= j < k ==> buf[addr + SIZEOF_MAP + j] == m.data[j]
        invariant forall c :: 0 <= c < buf.Length && !(addr <= c < addr + SIZEOF_MAP + |m.data|) ==>
          buf[c] == old(buf[c])
      {
        buf[addr + SIZEOF_MAP + k] := m.data[k];
        k := k + 1;
      }
    }

    /** One step of fill. */
    method FillOne(buf: array<int>, i: nat)
      requires |mapping| == |maps| && PlanOk(maps, mapping, offset) && i < |maps|
      requires DataAddr(|maps|) + offset <= buf.Length
      modifies buf
      ensures FilledAt(maps, mapping, buf[..], i) && ChangedOnly(maps, mapping, i, old(buf[..]), buf[..])
    {
      assert RangeOk(maps, mapping, offset, i);
      FillPair(buf, i);
      if mapping[i].kind.New? {
        StoreMap(buf, DataAddr(|maps|) + mapping[i].offset, maps[i]);
      }
    }

    method Fill(buf: array<int>)
      requires |mapping| == |maps| && PlanOk(maps, mapping, offset) && buf.Length == DataAddr(|maps|) + offset + GUARD
      requires Framed(buf[..], |maps|)
      modifies buf
      ensures Framed(buf[..], |maps|) && Filled(maps, mapping, buf[..], |maps|)
    {
      for i := 0 to |maps|
        invariant Framed(buf[..], |maps|) && Filled(maps, mapping, buf[..], i)
      {
        ghost var before := buf[..];
        FillOne(buf, i);
        FramedStays(maps, mapping, offset, before, buf[..], i);
        forall j: nat | j < i ensures FilledAt(maps, mapping, buf[..], j) {
          FilledStays(maps, mapping, offset, before, buf[..], j, i);
        }
      }
    }

    /** generate_into: guard bytes, header, pairs and maps. */
    method GenerateInto(buf: array<int>)
      requires Planned(|maps|) && required == buf.Length == DataAddr(|maps|) + offset + GUARD
      modifies buf
      ensures Built(buf[..], maps)
    {
      for k := 0 to GUARD
        invariant forall c :: buf.Length - GUARD <= c < buf.Length - GUARD + k ==> buf[c] == GUARD_VALUE
      {
        buf[buf.Length - GUARD + k] := GUARD_VALUE;
      }
      buf[0] := |maps|;
      buf[SECOND] := required;
      Fill(buf);
      forall i: nat | i < |maps| ensures Stored(buf[..], |maps|, i, maps[i]) {
        FilledIsStored(maps, mapping, offset, buf[..], i);
      }
    }

    method Build() returns (buf: array<int>)
      requires Planned(0) && MapsOk(maps)
      modifies this
      ensures fresh(buf) && Built(buf[..], maps)
    {
      var size := HeapSize();
      buf := new int[size](_ => 0);
      GenerateInto(buf);
    }
  }
}
