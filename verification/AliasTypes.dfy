/**
 * Alias categories of address types (opto/compile.cpp, find_alias_type): a growing table
 * with one entry per flattened type, and a small direct-mapped cache in front of it.
 * Types are interned, so a type is its address; flattening is given.
 */
module AliasTypes {
  import opened Wrappers

  type TypePtr = nat
  const NULL: TypePtr := 0

  const ALIAS_IDX_TOP: nat := 1
  const ALIAS_IDX_BOT: nat := 2
  const ALIAS_IDX_RAW: nat := 3
  const ALIAS_CACHE_SIZE: nat := 64
  const INITIAL_ALIAS_TYPES: nat := 16

  datatype AliasType = AliasType(index: nat, adrType: TypePtr, generalIndex: nat)
  datatype CacheEntry = CacheEntry(adrType: TypePtr, index: nat)

  /** What the type system provides. */
  datatype Types = Types(
    bottom: TypePtr,
    rawBottom: TypePtr,
    flatten: TypePtr -> TypePtr,
    isInstance: TypePtr -> bool,     // known instance
    general: TypePtr -> TypePtr)     // cast_to_instance_id(InstanceBot)

  predicate IsSpecial(ty: Types, t: TypePtr) {
    t == NULL || t == ty.bottom
  }

  ghost predicate FlattensWell(ty: Types, t: TypePtr) {
    !IsSpecial(ty, t) ==>
      && !IsSpecial(ty, ty.flatten(t)) && ty.flatten(ty.flatten(t)) == ty.flatten(t)
      && (ty.isInstance(ty.flatten(t)) ==>
            !IsSpecial(ty, ty.general(ty.flatten(t))) && !ty.isInstance(ty.flatten(ty.general(ty.flatten(t)))))
  }

  /** Flattening is idempotent and never yields an untyped pointer; a general type is not an instance. */
  ghost predicate TypesOk(ty: Types) {
    && ty.bottom != NULL && !IsSpecial(ty, ty.rawBottom)
    && ty.flatten(ty.rawBottom) == ty.rawBottom && !ty.isInstance(ty.rawBottom)
    && forall t: TypePtr :: FlattensWell(ty, t)
  }

  // ----- The answer without a cache -----

  function IndexIn(adrs: seq<TypePtr>, t: TypePtr): (r: Option<nat>)
    ensures r.Some? ==> r.value < |adrs| && adrs[r.value] == t && forall i :: 0 <= i < r.value ==> adrs[i] != t
    ensures r.None? ==> t !in adrs
  {
    if adrs == [] then None
    else if adrs[0] == t then Some(0)
    else match IndexIn(adrs[1..], t)
         case None => None
         case Some(i) => Some(i + 1)
  }

  /** The alias index of an address type in a table that holds the types adrs. */
  function Lookup(ty: Types, adrs: seq<TypePtr>, t: TypePtr): Option<nat> {
    if t == NULL then Some(ALIAS_IDX_TOP)
    else if t == ty.bottom then Some(ALIAS_IDX_BOT)
    else IndexIn(adrs, ty.flatten(t))
  }

  ghost predicate RowOk(ty: Types, adrs: seq<TypePtr>, i: nat) {
    3 <= i < |adrs| ==> !IsSpecial(ty, adrs[i]) && ty.flatten(adrs[i]) == adrs[i]
  }

  /** The first rows are fixed, the others are distinct flattened types. */
  ghost predicate TableOk(ty: Types, adrs: seq<TypePtr>) {
    && |adrs| > ALIAS_IDX_RAW
    && adrs[0] == NULL && adrs[ALIAS_IDX_TOP] == NULL && adrs[ALIAS_IDX_BOT] == ty.bottom &&
      adrs[ALIAS_IDX_RAW] == ty.rawBottom
    && (forall i: nat :: RowOk(ty, adrs, i))
    && forall i, j :: 2 <= i < j < |adrs| ==> adrs[i] != adrs[j]
  }

  ghost function Flat(ty: Types, t: TypePtr): TypePtr {
    if IsSpecial(ty, t) then t else ty.flatten(t)
  }

  /** Two types have one index exactly if they flatten to one type. */
  lemma SharedIndex(ty: Types, adrs: seq<TypePtr>, t: TypePtr, u: TypePtr)
    requires TypesOk(ty) && TableOk(ty, adrs) && Lookup(ty, adrs, t).Some? && Lookup(ty, adrs, u).Some?
    ensures Lookup(ty, adrs, t) == Lookup(ty, adrs, u) <==> Flat(ty, t) == Flat(ty, u)
  {
    assert FlattensWell(ty, t) && FlattensWell(ty, u);
    RowOfLookup(ty, adrs, t);
    RowOfLookup(ty, adrs, u);
  }

  lemma RowOfLookup(ty: Types, adrs: seq<TypePtr>, t: TypePtr)
    requires TypesOk(ty) && TableOk(ty, adrs) && Lookup(ty, adrs, t).Some?
    ensures Lookup(ty, adrs, t).value < |adrs| && adrs[Lookup(ty, adrs, t).value] == Flat(ty, t)
    ensures !IsSpecial(ty, t) ==> Lookup(ty, adrs, t).value > ALIAS_IDX_BOT
  {
    assert FlattensWell(ty, t);
  }

  /** A new row changes no index that was there. */
  lemma LookupStays(ty: Types, adrs: seq<TypePtr>, more: seq<TypePtr>, t: TypePtr)
    requires Lookup(ty, adrs, t).Some? && adrs <= more
    ensures Lookup(ty, more, t) == Lookup(ty, adrs, t)
  {
    if !IsSpecial(ty, t) {
      var i := IndexIn(adrs, ty.flatten(t)).value;
      assert more[i] == ty.flatten(t);
      assert forall j :: 0 <= j < i ==> more[j] == adrs[j];
      var k := IndexIn(more, ty.flatten(t));
      assert k.Some?;
    }
  }

  /** A type that is not in the table gets the next index. */
  lemma NewRow(ty: Types, adrs: seq<TypePtr>, t: TypePtr)
    requires TypesOk(ty) && TableOk(ty, adrs) && Lookup(ty, adrs, t).None?
    ensures TableOk(ty, adrs + [ty.flatten(t)]) && Lookup(ty, adrs + [ty.flatten(t)], t) == Some(|adrs|)
  {
    var f := ty.flatten(t);
    var more := adrs + [f];
    assert FlattensWell(ty, t);
    forall i: nat ensures RowOk(ty, more, i) {
      assert RowOk(ty, adrs, i);
    }
    assert more[|adrs|] == f;
    assert IndexIn(more, f).Some?;
    assert forall i :: 0 <= i < |adrs| ==> more[i] == adrs[i] && adrs[i] != f;
  }

  // ----- The cache -----

  /** probe_alias_cache: (key ^ key >> 6) & 63 */
  function SlotOf(t: TypePtr): (k: nat)
    ensures k < ALIAS_CACHE_SIZE
  {
    (((t % 64) as bv6) ^ (((t / 64) % 64) as bv6)) as nat
  }

  lemma NullSlot()
    ensures SlotOf(NULL) == 0
  {
  }

  ghost predicate EntryOk(ty: Types, adrs: seq<TypePtr>, e: CacheEntry, k: nat) {
    if e.adrType == NULL then k == 0 ==> e.index == ALIAS_IDX_TOP else Lookup(ty, adrs, e.adrType) == Some(e.index)
  }

  /** Every cached answer is the uncached one. */
  ghost predicate CacheOk(ty: Types, adrs: seq<TypePtr>, cache: seq<CacheEntry>) {
    |cache| == ALIAS_CACHE_SIZE && forall k: nat :: k < |cache| ==> EntryOk(ty, adrs, cache[k], k)
  }

  lemma CacheStays(ty: Types, adrs: seq<TypePtr>, more: seq<TypePtr>, cache: seq<CacheEntry>)
    requires CacheOk(ty, adrs, cache) && adrs <= more
    ensures CacheOk(ty, more, cache)
  {
    forall k: nat | k < |cache| ensures EntryOk(ty, more, cache[k], k) {
      assert EntryOk(ty, adrs, cache[k], k);
      if cache[k].adrType != NULL {
        LookupStays(ty, adrs, more, cache[k].adrType);
      }
    }
  }

  // ----- The table -----

  ghost function AdrsOf(rows: seq<AliasType>, num: nat): (s: seq<TypePtr>)
    requires num <= |rows|
    ensures |s| == num
  {
    seq(num, i requires 0 <= i < num => rows[i].adrType)
  }

  ghost predicate GeneralOk(ty: Types, adrs: seq<TypePtr>, row: AliasType) {
    if ty.isInstance(row.adrType) then Lookup(ty, adrs, ty.general(row.adrType)) == Some(row.generalIndex)
      else row.generalIndex == 0
  }

  /** Rows know their index, and from row 4 on, unless pending, the index of the general type. */
  ghost predicate RowsOk(ty: Types, adrs: seq<TypePtr>, rows: seq<AliasType>, pending: set<nat>)
    requires |adrs| <= |rows|
  {
    forall i: nat :: i < |adrs| ==>
      rows[i].index == i && (i > ALIAS_IDX_RAW && i !in pending ==> GeneralOk(ty, adrs, rows[i]))
  }

  lemma RowsStay(ty: Types, adrs: seq<TypePtr>, more: seq<TypePtr>, rows: seq<AliasType>, pending: set<nat>, i: nat)
    requires |adrs| <= |more| <= |rows| && adrs <= more && i < |adrs| && i > ALIAS_IDX_RAW && i !in pending
    requires RowsOk(ty, adrs, rows[..|adrs|], pending)
    ensures GeneralOk(ty, more, rows[i])
  {
    assert rows[..|adrs|][i] == rows[i];
    if ty.isInstance(rows[i].adrType) {
      LookupStays(ty, adrs, more, ty.general(rows[i].adrType));
    }
  }

  class Compile {
    const ty: Types
    const aliasLevel: nat
    var aliasTypes: seq<AliasType>
    var numAliasTypes: nat
    const aliasCache: array<CacheEntry>

    ghost function Adrs(): seq<TypePtr>
      requires numAliasTypes <= |aliasTypes|
      reads this
    {
      AdrsOf(aliasTypes, numAliasTypes)
    }

    ghost predicate Valid(pending: set<nat>)
      reads this, aliasCache
    {
      && TypesOk(ty) && numAliasTypes <= |aliasTypes|
      && TableOk(ty, Adrs()) && RowsOk(ty, Adrs(), aliasTypes, pending)
      && CacheOk(ty, Adrs(), aliasCache[..])
    }

    constructor (ty: Types, aliasLevel: nat)
      requires TypesOk(ty)
      ensures this.ty == ty && this.aliasLevel == aliasLevel && fresh(aliasCache)
      ensures Valid({}) && Adrs() == [NULL, NULL, ty.bottom, ty.rawBottom]
    {
      this.ty, this.aliasLevel := ty, aliasLevel;
      aliasTypes := [AliasType(0, NULL, 0), AliasType(ALIAS_IDX_TOP, NULL, 0), AliasType(ALIAS_IDX_BOT, ty.bottom, 0),
        AliasType(ALIAS_IDX_RAW, ty.rawBottom, 0)]
        + seq(INITIAL_ALIAS_TYPES - 4, _ => AliasType(0, NULL, 0));
      numAliasTypes := ALIAS_IDX_RAW + 1;
      aliasCache := new CacheEntry[ALIAS_CACHE_SIZE](_ => CacheEntry(NULL, 0));
      new;
      NullSlot();
      aliasCache[SlotOf(NULL)] := CacheEntry(NULL, ALIAS_IDX_TOP);
      assert Adrs() == [NULL, NULL, ty.bottom, ty.rawBottom];
      assert FlattensWell(ty, ty.rawBottom);
    }

    /** The row of a flattened type, or AliasIdxTop if there is none. */
    method FindRow(flat: TypePtr) returns (idx: nat)
      requires numAliasTypes <= |aliasTypes| && TableOk(ty, Adrs()) && flat != NULL
      ensures IndexIn(Adrs(), flat) == if idx == ALIAS_IDX_TOP then None else Some(idx)
    {
      idx := ALIAS_IDX_TOP;
      ghost var adrs := Adrs();
      var i := 0;
      while i < numAliasTypes
        invariant 0 <= i <= numAliasTypes
        invariant forall j :: 0 <= j < i ==> adrs[j] != flat
      {
        if aliasTypes[i].adrType == flat {
          assert adrs[i] == flat;
          return i;
        }
        i := i + 1;
      }
    }

    method GrowAliasTypes()
      requires numAliasTypes <= |aliasTypes|
      modifies this`aliasTypes
      ensures |aliasTypes| == 2 * |old(aliasTypes)| && old(aliasTypes) <= aliasTypes && Adrs() == old(Adrs())
    {
      aliasTypes := aliasTypes + seq(|aliasTypes|, _ => AliasType(0, NULL, 0));
    }

    /** A new row for the flattened type, its general index still to come. */
    method NewAliasType(t: TypePtr, ghost pending: set<nat>) returns (idx: nat)
      requires Valid(pending) && Lookup(ty, Adrs(), t).None?
      modifies this
      ensures idx == old(numAliasTypes) && Valid(pending + {idx}) && Adrs() == old(Adrs()) + [ty.flatten(t)]
      ensures numAliasTypes == idx + 1 && old(aliasTypes)[..idx] == aliasTypes[..idx]
      ensures aliasTypes[idx] == AliasType(idx, ty.flatten(t), 0)
    {
      ghost var adrs, rows := Adrs(), aliasTypes;
      NewRow(ty, adrs, t);
      CacheStays(ty, adrs, adrs + [ty.flatten(t)], aliasCache[..]);
      if numAliasTypes == |aliasTypes| {
        GrowAliasTypes();
      }
      idx := numAliasTypes;
      numAliasTypes := numAliasTypes + 1;
      aliasTypes := aliasTypes[idx := AliasType(idx, ty.flatten(t), 0)];
      assert Adrs() == adrs + [ty.flatten(t)];
      forall i: nat | i <= idx
        ensures aliasTypes[i].index == i
        ensures i > ALIAS_IDX_RAW && i !in pending + {idx} ==> GeneralOk(ty, Adrs(), aliasTypes[i])
      {
        if i < idx {
          assert aliasTypes[i] == rows[i];
          if i > ALIAS_IDX_RAW && i !in pending {
            RowsStay(ty, adrs, Adrs(), aliasTypes, pending, i);
          }
        }
      }
    }

    /** Fills the cache for the type and, if its slot is free, for the flattened type. */
    method FillCache(t: TypePtr, idx: nat, ghost pending: set<nat>)
      requires Valid(pending) && !IsSpecial(ty, t) && Lookup(ty, Adrs(), t) == Some(idx)
      modifies aliasCache
      ensures Valid(pending) && aliasCache[SlotOf(t)] == CacheEntry(t, idx)
      ensures var slot := SlotOf(ty.flatten(t)); slot != SlotOf(t) ==>
        aliasCache[slot] == if old(aliasCache[slot]).adrType == NULL then CacheEntry(ty.flatten(t), idx)
          else old(aliasCache[slot])
      ensures forall k :: 0 <= k < aliasCache.Length && k != SlotOf(t) && k != SlotOf(ty.flatten(t)) ==>
        aliasCache[k] == old(aliasCache[k])
    {
      assert FlattensWell(ty, t);
      var flat := ty.flatten(t);
      aliasCache[SlotOf(t)] := CacheEntry(t, idx);
      if aliasCache[SlotOf(flat)].adrType == NULL {
        aliasCache[SlotOf(flat)] := CacheEntry(flat, idx);
      }
    }

    /** The answer of the cache, if it has one. */
    method ProbeCache(t: TypePtr, ghost pending: set<nat>) returns (r: Option<nat>)
      requires Valid(pending)
      ensures r.Some? ==> r == Lookup(ty, Adrs(), t)
    {
      NullSlot();
      var ace := aliasCache[SlotOf(t)];
      assert EntryOk(ty, Adrs(), aliasCache[..][SlotOf(t)], SlotOf(t));
      r := if ace.adrType == t then Some(ace.index) else None;
    }

    /** The instance types whose general type may have to be added first. */
    ghost function Depth(t: TypePtr): nat {
      if !IsSpecial(ty, t) && ty.isInstance(ty.flatten(t)) then 1 else 0
    }

    /** No row that was there has changed. */
    twostate predicate Grown()
      reads this
    {
      && old(numAliasTypes) <= numAliasTypes && old(numAliasTypes) <= |old(aliasTypes)| && numAliasTypes <= |aliasTypes|
      && old(aliasTypes)[..old(numAliasTypes)] == aliasTypes[..old(numAliasTypes)]
      && old(Adrs()) <= Adrs()
    }

    /** Row idx gets the index of its general type. */
    method SetGeneral(idx: nat, general: nat, ghost pending: set<nat>)
      requires Valid(pending + {idx}) && idx < numAliasTypes
      requires GeneralOk(ty, Adrs(), aliasTypes[idx].(generalIndex := general))
      modifies this`aliasTypes
      ensures Valid(pending) && Adrs() == old(Adrs())
      ensures aliasTypes == old(aliasTypes)[idx := old(aliasTypes)[idx].(generalIndex := general)]
    {
      ghost var rows, now := aliasTypes, Adrs();
      aliasTypes := aliasTypes[idx := aliasTypes[idx].(generalIndex := general)];
      assert Adrs() == now;
      forall i: nat | i < numAliasTypes
        ensures aliasTypes[i].index == i && (i > ALIAS_IDX_RAW && i !in pending ==> GeneralOk(ty, now, aliasTypes[i]))
      {
        assert i != idx ==> aliasTypes[i] == rows[i];
      }
    }

    /** A new row, with the index of its general type. */
    method AddAliasType(t: TypePtr, ghost pending: set<nat>) returns (idx: nat)
      requires Valid(pending) && aliasLevel > 0 && Lookup(ty, Adrs(), t).None? &&
        forall p :: p in pending ==> p < numAliasTypes
      modifies this, aliasCache
      ensures Valid(pending) && Grown() && Lookup(ty, Adrs(), t) == Some(idx)
      decreases Depth(t), 0
    {
      ghost var adrs := Adrs();
      NewRow(ty, adrs, t);
      idx := NewAliasType(t, pending);
      ghost var more := Adrs();
      if ty.isInstance(ty.flatten(t)) {
        assert FlattensWell(ty, t);
        var g := FindAliasType(ty.general(ty.flatten(t)), false, pending + {idx});
        LookupStays(ty, more, Adrs(), t);
        assert aliasTypes[..idx + 1][idx] == AliasType(idx, ty.flatten(t), 0);
        SetGeneral(idx, g.value, pending);
      } else {
        assert aliasTypes[idx].generalIndex == 0;
      }
    }

    /**
     * find_alias_type: the index of the type's category.  The cache, the growth of the table and the rows added
     * on the way make no difference to the answer; without leave to create a row, nothing changes.
     */
    method FindAliasType(t: TypePtr, noCreate: bool, ghost pending: set<nat>) returns (r: Option<nat>)
      requires Valid(pending) && forall p :: p in pending ==> p < numAliasTypes
      modifies this, aliasCache
      ensures Valid(pending) && Grown()
      ensures aliasLevel == 0 ==> r == Some(ALIAS_IDX_BOT) && Adrs() == old(Adrs())
      ensures aliasLevel > 0 ==> r == Lookup(ty, Adrs(), t) && (r.None? ==> noCreate)
      ensures aliasLevel > 0 && (noCreate || old(Lookup(ty, Adrs(), t)).Some?) ==>
        r == old(Lookup(ty, Adrs(), t)) && Adrs() == old(Adrs())
      decreases Depth(t), 1
    {
      if aliasLevel == 0 {
        return Some(ALIAS_IDX_BOT);
      }
      r := ProbeCache(t, pending);
      if r.Some? {
        return;
      }
      if t == NULL {
        return Some(ALIAS_IDX_TOP);
      }
      if t == ty.bottom {
        return Some(ALIAS_IDX_BOT);
      }
      assert FlattensWell(ty, t);
      var flat := ty.flatten(t);
      var idx := FindRow(flat);
      if idx == ALIAS_IDX_TOP {
        if noCreate {
          return None;
        }
        idx := AddAliasType(t, pending);
      }
      FillCache(t, idx, pending);
      r := Some(idx);
    }

    method HaveAliasType(t: TypePtr) returns (have: bool)
      requires Valid({})
      modifies this, aliasCache
      ensures Valid({}) && Adrs() == old(Adrs())
      ensures have <==> aliasLevel == 0 || Lookup(ty, Adrs(), t).Some?
    {
      var ace := ProbeCache(t, {});
      if ace.Some? || t == NULL || t == ty.bottom {
        return true;
      }
      var r := FindAliasType(t, true, {});
      have := r.Some?;
    }
  }
}
