/**
 * Entries of oop maps, packed into 16-bit signed values, and the stream that reads
 * them back (compiler/oopMap.hpp, compiler/oopMap.cpp).  A written integer takes one
 * cell of the stream.
 */
module OopMapValues {

  const TYPE_BITS_SIZE: int := 4            // two type bits
  const REGISTER_SIZE: int := 0x4000        // fourteen register bits
  const SHORT_SIZE: int := 0x1_0000

  const OOP_VALUE: int := 0
  const NARROWOOP_VALUE: int := 1
  const CALLEE_SAVED_VALUE: int := 2
  const DERIVED_OOP_VALUE: int := 3

  /** Conversion to short: the low 16 bits, as a signed number. */
  function ToShort(x: int): (r: int)
    ensures -0x8000 <= r < 0x8000
    ensures -0x8000 <= x < 0x8000 ==> r == x
  {
    (x + 0x8000) % SHORT_SIZE - 0x8000
  }

  /** The fields of an OopMapValue. */
  datatype OopMapValue = OopMapValue(value: int, contentReg: int)

  function TypeOf(v: OopMapValue): (t: int)
    ensures 0 <= t < 4
  {
    v.value % TYPE_BITS_SIZE
  }

  /** mask_bits(value, register_mask_in_place) >> register_shift */
  function RegOf(v: OopMapValue): (r: int)
    ensures 0 <= r < REGISTER_SIZE
  {
    (v.value % SHORT_SIZE) / TYPE_BITS_SIZE
  }

  predicate HasContent(t: int) {
    t == CALLEE_SAVED_VALUE || t == DERIVED_OOP_VALUE
  }

  /** set_reg_type and set_content_reg */
  function Make(reg: int, t: int, content: int): OopMapValue
    requires 0 <= t < 4
  {
    OopMapValue(ToShort(reg * TYPE_BITS_SIZE + t), ToShort(content))
  }

  /** legal_vm_reg_name */
  predicate LegalReg(reg: int) {
    reg == reg % REGISTER_SIZE
  }

  /** A register survives packing exactly if it is legal; the type always does. */
  lemma PackingIsExact(reg: int, t: int, content: int)
    requires 0 <= t < 4
    ensures TypeOf(Make(reg, t, content)) == t
    ensures RegOf(Make(reg, t, content)) == reg <==> LegalReg(reg)
    ensures Make(reg, t, content).contentReg == content <==> -0x8000 <= content < 0x8000
  {
    PackedValue(reg, t);
  }

  /** What the type and register bits of a packed value are. */
  lemma PackedValue(reg: int, t: int)
    requires 0 <= t < 4
    ensures var v := ToShort(reg * 4 + t); v % 4 == t && (v % SHORT_SIZE) / 4 == reg % REGISTER_SIZE
  {
    ShortKeepsLowBits(reg * 4 + t);
    QuotientOfRemainder(reg, t);
  }

  lemma ShortKeepsLowBits(x: int)
    ensures ToShort(x) % SHORT_SIZE == x % SHORT_SIZE && ToShort(x) % 4 == x % 4
  {
  }

  lemma QuotientOfRemainder(reg: int, t: int)
    requires 0 <= t < 4
    ensures ((reg * 4 + t) % SHORT_SIZE) / 4 == reg % REGISTER_SIZE
  {
    var q, r := reg / REGISTER_SIZE, reg % REGISTER_SIZE;
    assert reg * 4 + t == q * SHORT_SIZE + (r * 4 + t);
  }

  // ----- Writing -----

  ghost predicate IsShort(x: int) {
    -0x8000 <= x < 0x8000
  }

  ghost predicate ShortsOnly(es: seq<OopMapValue>) {
    forall i :: 0 <= i < |es| ==> IsShort(es[i].value) && IsShort(es[i].contentReg)
  }

  /** write_on */
  function Encode(v: OopMapValue): (r: seq<int>)
    ensures 1 <= |r|
  {
    if HasContent(TypeOf(v)) then [v.value, v.contentReg] else [v.value]
  }

  function EncodeAll(es: seq<OopMapValue>): seq<int> {
    if es == [] then [] else EncodeAll(es[..|es| - 1]) + Encode(es[|es| - 1])
  }

  /** An OopMap under construction. */
  class OopMap {
    var count: nat
    var data: seq<int>
    ghost var entries: seq<OopMapValue>

    ghost predicate Valid()
      reads this
    {
      count == |entries| && data == EncodeAll(entries) && ShortsOnly(entries)
    }

    constructor ()
      ensures Valid() && entries == []
    {
      count, data, entries := 0, [], [];
    }

    method SetXxx(reg: int, t: int, optional: int)
      requires Valid() && 0 <= t < 4
      modifies this
      ensures Valid() && entries == old(entries) + [Make(reg, t, optional)]
    {
      var o := Make(reg, t, optional);
      data := data + Encode(o);
      count := count + 1;
      entries := entries + [o];
      assert entries[..|entries| - 1] == old(entries);
    }

    /** A derived pointer that shares the storage of its base is an oop. */
    method SetDerivedOop(reg: int, base: int)
      requires Valid()
      modifies this
      ensures Valid()
      ensures entries == old(entries) +
        [if reg == base then Make(reg, OOP_VALUE, -1) else Make(reg, DERIVED_OOP_VALUE, base)]
    {
      if reg == base {
        SetXxx(reg, OOP_VALUE, -1);
      } else {
        SetXxx(reg, DERIVED_OOP_VALUE, base);
      }
    }
  }

  // ----- Reading -----

  ghost predicate EncodedAt(mem: seq<int>, start: nat, es: seq<OopMapValue>) {
    start + |EncodeAll(es)| <= |mem| && mem[start..start + |EncodeAll(es)|] == EncodeAll(es)
  }

  /** The same entry; the content register counts only for types that have one. */
  ghost predicate Same(a: OopMapValue, b: OopMapValue) {
    && a.value == b.value
    && (TypeOf(a) == CALLEE_SAVED_VALUE || TypeOf(a) == DERIVED_OOP_VALUE ==> a.contentReg == b.contentReg)
  }

  ghost predicate SameAll(a: seq<OopMapValue>, b: seq<OopMapValue>) {
    |a| == |b| && forall i :: 0 <= i < |a| ==> Same(a[i], b[i])
  }

  lemma NextLength(es: seq<OopMapValue>, k: nat)
    requires k < |es|
    ensures EncodeAll(es[..k + 1]) == EncodeAll(es[..k]) + Encode(es[k])
  {
    assert es[..k + 1][..k] == es[..k];
  }

  lemma ShorterPrefix(s: seq<int>, a: seq<int>, b: seq<int>)
    requires |a + b| <= |s| && s[..|a + b|] == a + b
    ensures s[..|a|] == a
  {
    assert s[..|a + b|][..|a|] == s[..|a|] && (a + b)[..|a|] == a;
  }

  lemma {:induction false} PrefixEncoded(es: seq<OopMapValue>, k: nat)
    requires k <= |es|
    ensures |EncodeAll(es[..k])| <= |EncodeAll(es)| && EncodeAll(es)[..|EncodeAll(es[..k])|] == EncodeAll(es[..k])
    decreases |es| - k
  {
    if k == |es| {
      assert es[..k] == es;
    } else {
      PrefixEncoded(es, k + 1);
      NextLength(es, k);
      ShorterPrefix(EncodeAll(es), EncodeAll(es[..k]), Encode(es[k]));
    }
  }

  /** Where the k'th entry stands in the encoding. */
  lemma EncodedEntry(es: seq<OopMapValue>, k: nat, j: nat)
    requires k < |es| && j < |Encode(es[k])|
    ensures |EncodeAll(es[..k])| + j < |EncodeAll(es)| && EncodeAll(es)[|EncodeAll(es[..k])| + j] == Encode(es[k])[j]
  {
    NextLength(es, k);
    PrefixEncoded(es, k + 1);
    var p := |EncodeAll(es[..k])| + j;
    PrefixAt(EncodeAll(es), EncodeAll(es[..k + 1]), p);
    assert EncodeAll(es[..k + 1])[p] == Encode(es[k])[j];
  }

  lemma PrefixAt(s: seq<int>, t: seq<int>, i: nat)
    requires |t| <= |s| && s[..|t|] == t && i < |t|
    ensures s[i] == t[i]
  {
    assert s[..|t|][i] == s[i];
  }

  lemma NextAt(mem: seq<int>, start: nat, es: seq<OopMapValue>, k: nat, j: nat)
    requires EncodedAt(mem, start, es) && k < |es| && j < |Encode(es[k])|
    ensures start + |EncodeAll(es[..k])| + j < |mem| && mem[start + |EncodeAll(es[..k])| + j] == Encode(es[k])[j]
  {
    EncodedEntry(es, k, j);
    SliceAt(mem, start, EncodeAll(es), |EncodeAll(es[..k])| + j);
  }

  lemma NextEncoded(mem: seq<int>, start: nat, es: seq<OopMapValue>, k: nat)
    requires EncodedAt(mem, start, es) && k < |es|
    ensures |EncodeAll(es[..k + 1])| == |EncodeAll(es[..k])| + |Encode(es[k])|
    ensures start + |EncodeAll(es[..k + 1])| <= |mem|
    ensures forall j :: 0 <= j < |Encode(es[k])| ==> mem[start + |EncodeAll(es[..k])| + j] == Encode(es[k])[j]
  {
    PrefixEncoded(es, k + 1);
    NextLength(es, k);
    var n := |EncodeAll(es[..k])|;
    forall j | 0 <= j < |Encode(es[k])| ensures mem[start + n + j] == Encode(es[k])[j] {
      NextAt(mem, start, es, k, j);
    }
  }

  lemma SliceAt(mem: seq<int>, start: nat, s: seq<int>, i: nat)
    requires start + |s| <= |mem| && mem[start..start + |s|] == s && i < |s|
    ensures mem[start + i] == s[i]
  {
    assert mem[start..start + |s|][i] == mem[start + i];
  }

  class OopMapStream {
    const mem: seq<int>
    ghost const start: nat
    const size: nat
    var streamPos: nat
    var position: nat
    var valid: bool
    var omv: OopMapValue

    /** The stream over es, with the entry before position as its current one if it is valid. */
    ghost predicate Over(es: seq<OopMapValue>)
      reads this
    {
      && size == |es| && EncodedAt(mem, start, es) && ShortsOnly(es)
      && if valid then
           && 1 <= position <= size && streamPos == start + |EncodeAll(es[..position])|
           && Same(es[position - 1], omv)
         else
           (position == 0 && streamPos == start) || position > size
    }

    constructor (mem: seq<int>, start: nat, size: nat, ghost es: seq<OopMapValue>)
      requires size == |es| && EncodedAt(mem, start, es) && ShortsOnly(es)
      ensures this.mem == mem && this.start == start && this.size == size
      ensures Over(es) && !valid && position == 0
    {
      this.mem, this.start, this.size := mem, start, size;
      streamPos, position, valid, omv := start, 0, false, OopMapValue(0, -1);
    }

    /** read_from: a type without content leaves the content register of the entry read before. */
    method ReadFrom(ghost es: seq<OopMapValue>, ghost k: nat)
      requires k < |es| && EncodedAt(mem, start, es) && ShortsOnly(es) && streamPos == start + |EncodeAll(es[..k])|
      modifies this`omv, this`streamPos
      ensures Same(es[k], omv) && streamPos == start + |EncodeAll(es[..k + 1])|
    {
      NextEncoded(mem, start, es, k);
      assert mem[streamPos + 0] == Encode(es[k])[0];
      omv := omv.(value := ToShort(mem[streamPos]));
      streamPos := streamPos + 1;
      if HasContent(TypeOf(omv)) {
        assert mem[start + |EncodeAll(es[..k])| + 1] == Encode(es[k])[1];
        omv := omv.(contentReg := ToShort(mem[streamPos]));
        streamPos := streamPos + 1;
      }
    }

    method FindNext(ghost es: seq<OopMapValue>)
      requires Over(es)
      modifies this
      ensures Over(es) && position == old(position) + 1 && valid == (old(position) < size)
    {
      if position < size {
        assert position == 0 ==> es[..position] == [];
        ReadFrom(es, position);
        valid := true;
      } else {
        valid := false;
      }
      position := position + 1;
    }

    method IsDone(ghost es: seq<OopMapValue>) returns (done: bool)
      requires Over(es)
      modifies this
      ensures Over(es) && done == !valid
      ensures if old(valid) then position == old(position)
        else position == old(position) + 1 && valid == (old(position) < size)
    {
      if !valid {
        FindNext(es);
      }
      return !valid;
    }
  }

  /** Iterating over a stream yields the entries in order. */
  method ReadEntries(mem: seq<int>, start: nat, size: nat, ghost es: seq<OopMapValue>) returns (r: seq<OopMapValue>)
    requires size == |es| && EncodedAt(mem, start, es) && ShortsOnly(es)
    ensures SameAll(es, r)
  {
    r := [];
    var oms := new OopMapStream(mem, start, size, es);
    while true
      invariant oms.Over(es) && oms.size == size
      invariant fresh(oms)
      invariant |r| == if oms.valid then oms.position - 1 else if oms.position == 0 then 0 else |es|
      invariant forall i :: 0 <= i < |r| ==> Same(es[i], r[i])
      decreases |es| - |r|
    {
      var done := oms.IsDone(es);
      if done {
        break;
      }
      r := r + [oms.omv];
      oms.FindNext(es);
    }
  }
}
