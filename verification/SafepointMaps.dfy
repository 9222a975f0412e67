/**
 * The oop map of one safepoint (opto/buildOopMap.cpp, OopFlow::build_oop_map): from the
 * live registers and their reaching definitions, the locations of oops, derived pointers
 * with their bases, and callee-saved values.
 */
module SafepointMaps {
  import opened Wrappers
  import opened OopMapValues

  type NodeId = nat

  /** The type of a definition: an oop (or a BoxLock) at an offset from its base, a narrow oop, or something else. */
  datatype DefType = Pointer(offset: int) | NarrowOop | Value

  datatype Record = Record(t: int, reg: int, content: int)

  const NO_REG: int := -1

  /** A safepoint and what the register allocator and the flow pass know about it. */
  datatype Site = Site(
    maxReg: nat,
    defs: map<nat, NodeId>,              // reaching definitions
    callees: map<nat, int>,              // callee-saved values, by VM register
    types: map<NodeId, DefType>,
    args: set<NodeId>,                   // arguments of the call, if it is one
    pairs: seq<(NodeId, NodeId)>,        // derived and base inputs of the safepoint
    copyOf: map<NodeId, NodeId>,         // copies and what they copy
    firstReg: map<NodeId, nat>,
    vm: map<nat, int>)                   // VM register of each register

  // ----- Finding the base of a derived pointer -----

  ghost predicate CopiesEnd(s: Site, rank: map<NodeId, nat>) {
    forall n :: n in s.copyOf ==>
      n in rank && (s.copyOf[n] in s.copyOf ==> s.copyOf[n] in rank && rank[s.copyOf[n]] < rank[n])
  }

  /** n and what it is a copy of, and so on. */
  ghost function Sources(s: Site, rank: map<NodeId, nat>, n: NodeId): set<NodeId>
    requires CopiesEnd(s, rank)
    decreases if n in s.copyOf then rank[n] + 1 else 0
  {
    {n} + if n in s.copyOf then Sources(s, rank, s.copyOf[n]) else {}
  }

  /** Both are copies of one node. */
  ghost predicate Meet(s: Site, rank: map<NodeId, nat>, m: NodeId, d: NodeId)
    requires CopiesEnd(s, rank)
  {
    exists x :: x in Sources(s, rank, m) && x in Sources(s, rank, d)
  }

  /**
   * i is the first pair whose derived input is def; or, if there is none, the first one that is a copy of one node with
   * it.
   */
  ghost predicate IsPairFor(s: Site, rank: map<NodeId, nat>, def: NodeId, i: nat)
    requires CopiesEnd(s, rank)
  {
    && i < |s.pairs|
    && if exists j :: 0 <= j < |s.pairs| && s.pairs[j].0 == def then
         s.pairs[i].0 == def && forall j :: 0 <= j < i ==> s.pairs[j].0 != def
       else
         Meet(s, rank, s.pairs[i].0, def) && forall j :: 0 <= j < i ==> !Meet(s, rank, s.pairs[j].0, def)
  }

  ghost predicate HasPair(s: Site, rank: map<NodeId, nat>, def: NodeId)
    requires CopiesEnd(s, rank)
  {
    exists i: nat :: IsPairFor(s, rank, def, i)
  }

  /** Follows copies of the reaching definition to their end. */
  method FollowDef(s: Site, ghost rank: map<NodeId, nat>, m: NodeId, def: NodeId) returns (found: bool)
    requires CopiesEnd(s, rank)
    ensures found <==> m in Sources(s, rank, def)
  {
    var d := def;
    while true
      invariant m in Sources(s, rank, def) <==> m in Sources(s, rank, d)
      decreases if d in s.copyOf then rank[d] + 1 else 0
    {
      if m == d {
        return true;
      }
      if d !in s.copyOf {
        return false;
      }
      d := s.copyOf[d];
    }
  }

  method FollowBoth(s: Site, ghost rank: map<NodeId, nat>, m0: NodeId, def: NodeId) returns (found: bool)
    requires CopiesEnd(s, rank)
    ensures found <==> Meet(s, rank, m0, def)
  {
    var m := m0;
    while true
      invariant Meet(s, rank, m0, def) <==> Meet(s, rank, m, def)
      decreases if m in s.copyOf then rank[m] + 1 else 0
    {
      found := FollowDef(s, rank, m, def);
      if found {
        assert m in Sources(s, rank, m);
        return;
      }
      if m !in s.copyOf {
        assert Sources(s, rank, m) == {m};
        return;
      }
      assert Sources(s, rank, m) == {m} + Sources(s, rank, s.copyOf[m]);
      m := s.copyOf[m];
    }
  }

  method FindPair(s: Site, ghost rank: map<NodeId, nat>, def: NodeId) returns (i: Option<nat>)
    requires CopiesEnd(s, rank)
    ensures i.Some? <==> HasPair(s, rank, def)
    ensures i.Some? ==> IsPairFor(s, rank, def, i.value)
  {
    var k := 0;
    while k < |s.pairs|
      invariant 0 <= k <= |s.pairs| && forall j :: 0 <= j < k ==> s.pairs[j].0 != def
    {
      if s.pairs[k].0 == def {
        assert IsPairFor(s, rank, def, k);
        return Some(k);
      }
      k := k + 1;
    }
    k := 0;
    while k < |s.pairs|
      invariant 0 <= k <= |s.pairs| && forall j :: 0 <= j < k ==> !Meet(s, rank, s.pairs[j].0, def)
    {
      var found := FollowBoth(s, rank, s.pairs[k].0, def);
      if found {
        assert IsPairFor(s, rank, def, k);
        return Some(k);
      }
      k := k + 1;
    }
    i := None;
  }

  lemma PairIsUnique(s: Site, rank: map<NodeId, nat>, def: NodeId, i: nat, j: nat)
    requires CopiesEnd(s, rank) && IsPairFor(s, rank, def, i) && IsPairFor(s, rank, def, j)
    ensures i == j
  {
  }

  // ----- What is recorded -----

  /** Registers have distinct VM registers; defined ones have typed definitions. */
  ghost predicate SiteOk(s: Site, rank: map<NodeId, nat>) {
    && CopiesEnd(s, rank)
    && (forall r: nat :: r < s.maxReg ==> r in s.vm)
    && (forall r: nat, q: nat :: r < s.maxReg && q < s.maxReg && r != q ==> s.vm[r] != s.vm[q])
    && (forall r :: r in s.defs ==> s.defs[r] in s.types)
  }

  ghost predicate IsDefined(s: Site, r: nat) {
    r < s.maxReg && r in s.vm && r in s.defs && s.defs[r] in s.types
  }

  /** The low half of a register pair, with a name that fits into an oop map. */
  ghost predicate IsNamed(s: Site, r: nat)
    requires IsDefined(s, r)
  {
    r % 2 == 0 && LegalReg(s.vm[r])
  }

  ghost predicate IsPlain(s: Site, r: nat) {
    IsDefined(s, r) && s.types[s.defs[r]].Pointer? && s.types[s.defs[r]].offset == 0 && IsNamed(s, r) &&
      s.defs[r] !in s.args
  }

  ghost predicate IsDerived(s: Site, r: nat) {
    IsDefined(s, r) && s.types[s.defs[r]].Pointer? && s.types[s.defs[r]].offset != 0 && IsNamed(s, r)
  }

  ghost predicate IsNarrow(s: Site, r: nat) {
    IsDefined(s, r) && s.types[s.defs[r]].NarrowOop? && LegalReg(s.vm[r]) && s.defs[r] !in s.args
  }

  ghost predicate IsSaved(s: Site, r: nat) {
    IsDefined(s, r) && s.types[s.defs[r]].Value? && r in s.callees && s.callees[r] != NO_REG
  }

  /** b is the register of the base of derived pointer r. */
  ghost predicate IsBaseOf(s: Site, rank: map<NodeId, nat>, r: nat, b: nat)
    requires CopiesEnd(s, rank)
  {
    IsDerived(s, r) && exists i: nat ::
      IsPairFor(s, rank, s.defs[r], i) && s.pairs[i].1 in s.firstReg && s.firstReg[s.pairs[i].1] == b
  }

  lemma BaseIsUnique(s: Site, rank: map<NodeId, nat>, r: nat, b: nat, c: nat)
    requires CopiesEnd(s, rank) && IsBaseOf(s, rank, r, b) && IsBaseOf(s, rank, r, c)
    ensures b == c
  {
    var i: nat :| IsPairFor(s, rank, s.defs[r], i) && s.pairs[i].1 in s.firstReg && s.firstReg[s.pairs[i].1] == b;
    var j: nat :| IsPairFor(s, rank, s.defs[r], j) && s.pairs[j].1 in s.firstReg && s.firstReg[s.pairs[j].1] == c;
    PairIsUnique(s, rank, s.defs[r], i, j);
  }

  /** The bases of live derived pointers are zero-offset oops in low, legal registers, and not arguments. */
  ghost predicate BasesOk(s: Site, rank: map<NodeId, nat>, live: set<nat>)
    requires CopiesEnd(s, rank)
  {
    forall r :: r in live && IsDerived(s, r) ==> exists b: nat :: IsBaseOf(s, rank, r, b) && IsPlain(s, b)
  }

  /** What register r, when live, contributes to the map. */
  ghost predicate IsRecordOf(s: Site, rank: map<NodeId, nat>, r: nat, e: Record)
    requires CopiesEnd(s, rank)
  {
    || (IsPlain(s, r) && e == Record(OOP_VALUE, s.vm[r], NO_REG))
    || (IsDerived(s, r) && exists b: nat ::
      b in s.vm && IsBaseOf(s, rank, r, b) && e == Record(DERIVED_OOP_VALUE, s.vm[r], s.vm[b]))
    || (IsNarrow(s, r) && e == Record(NARROWOOP_VALUE, s.vm[r], NO_REG))
    || (IsSaved(s, r) && e == Record(CALLEE_SAVED_VALUE, s.vm[r], s.callees[r]))
  }

  ghost predicate IsRecorded(s: Site, r: nat) {
    IsPlain(s, r) || IsDerived(s, r) || IsNarrow(s, r) || IsSaved(s, r)
  }

  /** The map holds exactly the records of the live registers below n, no location twice. */
  ghost predicate Records(s: Site, rank: map<NodeId, nat>, live: set<nat>, n: nat, omap: seq<Record>)
    requires CopiesEnd(s, rank)
  {
    && (forall i :: 0 <= i < |omap| ==> FromLive(s, rank, live, n, omap[i]))
    && (forall r: nat :: r in live && r < n && IsRecorded(s, r) ==>
      exists i :: 0 <= i < |omap| && IsRecordOf(s, rank, r, omap[i]))
    && (forall i, j :: 0 <= i < j < |omap| ==> omap[i].reg != omap[j].reg)
  }

  ghost predicate FromLive(s: Site, rank: map<NodeId, nat>, live: set<nat>, n: nat, e: Record)
    requires CopiesEnd(s, rank)
  {
    exists r: nat :: r in live && r < n && IsRecordOf(s, rank, r, e)
  }

  /** Every derived pointer in the map has its base in the map, as an oop. */
  ghost predicate BasesRecorded(omap: seq<Record>) {
    forall i :: 0 <= i < |omap| && omap[i].t == DERIVED_OOP_VALUE ==>
      exists j :: 0 <= j < |omap| && omap[j].t == OOP_VALUE && omap[j].reg == omap[i].content
  }

  /** Live registers are the given ones and the bases of derived ones among them, which are all live below n. */
  ghost predicate LiveOk(s: Site, rank: map<NodeId, nat>, live0: set<nat>, live: set<nat>, n: nat)
    requires CopiesEnd(s, rank)
  {
    && live0 <= live
    && (forall b :: b in live && b !in live0 ==> IsPlain(s, b) && exists r :: r in live0 && IsBaseOf(s, rank, r, b))
    && (forall r: nat, b: nat :: r in live && r < n && IsBaseOf(s, rank, r, b) ==> b in live)
  }

  /** Two registers never share a location. */
  lemma RecordLocation(s: Site, rank: map<NodeId, nat>, r: nat, e: Record)
    requires SiteOk(s, rank) && IsRecordOf(s, rank, r, e)
    ensures r < s.maxReg && e.reg == s.vm[r]
  {
  }

  /** Appending the record of a register that was not covered before. */
  lemma RecordsAppend(s: Site, rank: map<NodeId, nat>, live: set<nat>, n: nat, live': set<nat>, n': nat,
                      omap: seq<Record>, r: nat, e: Record)
    requires SiteOk(s, rank) && Records(s, rank, live, n, omap) && IsRecordOf(s, rank, r, e)
    requires live <= live' && n <= n' && r in live' && r < n' && (r !in live || r >= n)
    requires forall x: nat :: x in live' && x < n' && IsRecorded(s, x) ==> (x in live && x < n) || x == r
    ensures Records(s, rank, live', n', omap + [e])
  {
    var more := omap + [e];
    RecordLocation(s, rank, r, e);
    forall i | 0 <= i < |more| ensures FromLive(s, rank, live', n', more[i]) {
      if i < |omap| {
        assert FromLive(s, rank, live, n, omap[i]);
      }
    }
    forall x: nat | x in live' && x < n' && IsRecorded(s, x)
      ensures exists i :: 0 <= i < |more| && IsRecordOf(s, rank, x, more[i])
    {
      if x == r {
        assert more[|omap|] == e;
      } else {
        var i :| 0 <= i < |omap| && IsRecordOf(s, rank, x, omap[i]);
        assert more[i] == omap[i];
      }
    }
    forall i | 0 <= i < |omap| ensures omap[i].reg != e.reg {
      assert FromLive(s, rank, live, n, omap[i]);
      var x: nat :| x in live && x < n && IsRecordOf(s, rank, x, omap[i]);
      RecordLocation(s, rank, x, omap[i]);
    }
  }

  lemma RecordsSkip(s: Site, rank: map<NodeId, nat>, live: set<nat>, n: nat, live': set<nat>, n': nat,
                    omap: seq<Record>)
    requires CopiesEnd(s, rank) && Records(s, rank, live, n, omap) && live <= live' && n <= n'
    requires forall x: nat :: x in live' && x < n' && IsRecorded(s, x) ==> x in live && x < n
    ensures Records(s, rank, live', n', omap)
  {
    forall i | 0 <= i < |omap| ensures FromLive(s, rank, live', n', omap[i]) {
      assert FromLive(s, rank, live, n, omap[i]);
    }
  }

  lemma DerivedRecord(s: Site, rank: map<NodeId, nat>, r: nat, e: Record)
    requires SiteOk(s, rank) && IsRecordOf(s, rank, r, e) && e.t == DERIVED_OOP_VALUE
    ensures IsDerived(s, r) && forall b: nat :: IsBaseOf(s, rank, r, b) && b in s.vm ==> e.content == s.vm[b]
  {
    forall b: nat | IsBaseOf(s, rank, r, b) && b in s.vm ensures e.content == s.vm[b] {
      var c: nat :| c in s.vm && IsBaseOf(s, rank, r, c) && e == Record(DERIVED_OOP_VALUE, s.vm[r], s.vm[c]);
      BaseIsUnique(s, rank, r, b, c);
    }
  }

  lemma PlainRecord(s: Site, rank: map<NodeId, nat>, live: set<nat>, omap: seq<Record>, b: nat)
    requires SiteOk(s, rank) && Records(s, rank, live, s.maxReg, omap) && b in live && IsPlain(s, b)
    ensures exists j :: 0 <= j < |omap| && omap[j] == Record(OOP_VALUE, s.vm[b], NO_REG)
  {
    assert IsRecorded(s, b);
    var j :| 0 <= j < |omap| && IsRecordOf(s, rank, b, omap[j]);
    assert !IsDerived(s, b) && !IsNarrow(s, b) && !IsSaved(s, b);
  }

  /** Complete records have the bases of all derived pointers. */
  lemma RecordsHaveBases(s: Site, rank: map<NodeId, nat>, live0: set<nat>, live: set<nat>, omap: seq<Record>, i: nat)
    requires SiteOk(s, rank) && BasesOk(s, rank, live0) && LiveOk(s, rank, live0, live, s.maxReg)
    requires Records(s, rank, live, s.maxReg, omap)
    requires i < |omap| && omap[i].t == DERIVED_OOP_VALUE
    ensures exists j :: 0 <= j < |omap| && omap[j].t == OOP_VALUE && omap[j].reg == omap[i].content
  {
    assert FromLive(s, rank, live, s.maxReg, omap[i]);
    var r: nat :| r in live && r < s.maxReg && IsRecordOf(s, rank, r, omap[i]);
    DerivedRecord(s, rank, r, omap[i]);
    assert r in live0;
    var b: nat :| IsBaseOf(s, rank, r, b) && IsPlain(s, b);
    PlainRecord(s, rank, live, omap, b);
  }

  // ----- Building the map -----

  /** Everything is in place when the loop reaches register n.  (Folded: it opens where UptoAt is mentioned.) */
  ghost predicate Upto(s: Site, rank: map<NodeId, nat>, live0: set<nat>, live: set<nat>, n: nat, omap: seq<Record>) {
    forall k: nat :: k == n ==> UptoAt(s, rank, live0, live, k, omap)
  }

  ghost predicate UptoAt(s: Site, rank: map<NodeId, nat>, live0: set<nat>, live: set<nat>, n: nat, omap: seq<Record>) {
    && SiteOk(s, rank) && BasesOk(s, rank, live0) && (forall r :: r in live0 ==> IsDefined(s, r))
    && LiveOk(s, rank, live0, live, n) && Records(s, rank, live, n, omap)
  }

  lemma IsUpto(s: Site, rank: map<NodeId, nat>, live0: set<nat>, live: set<nat>, n: nat, omap: seq<Record>)
    requires SiteOk(s, rank) && BasesOk(s, rank, live0) && (forall r :: r in live0 ==> IsDefined(s, r))
    requires LiveOk(s, rank, live0, live, n) && Records(s, rank, live, n, omap)
    ensures Upto(s, rank, live0, live, n, omap)
  {
  }

  /** Register n contributes nothing, or just the record e. */
  lemma UptoNext(s: Site, rank: map<NodeId, nat>, live0: set<nat>, live: set<nat>, n: nat, omap: seq<Record>,
                 e: Option<Record>)
    requires Upto(s, rank, live0, live, n, omap) && CopiesEnd(s, rank) && !(n in live && IsDerived(s, n))
    requires if e.Some? then n in live && IsRecordOf(s, rank, n, e.value) else n !in live || !IsRecorded(s, n)
    ensures Upto(s, rank, live0, live, n + 1, if e.Some? then omap + [e.value] else omap)
  {
    assert UptoAt(s, rank, live0, live, n, omap);
    if e.Some? {
      RecordsAppend(s, rank, live, n, live, n + 1, omap, n, e.value);
    } else {
      RecordsSkip(s, rank, live, n, live, n + 1, omap);
    }
  }

  lemma LiveBase(s: Site, rank: map<NodeId, nat>, live0: set<nat>, live: set<nat>, n: nat, b: nat)
    requires CopiesEnd(s, rank) && LiveOk(s, rank, live0, live, n) && n in live0 && IsBaseOf(s, rank, n, b)
    requires IsPlain(s, b)
    ensures LiveOk(s, rank, live0, live + {b}, n)
  {
    forall r: nat, c: nat | r in live + {b} && r < n && IsBaseOf(s, rank, r, c) ensures c in live + {b} {
      assert IsDerived(s, r);
      assert r in live;
    }
    forall c | c in live + {b} && c !in live0
      ensures IsPlain(s, c) && exists r :: r in live0 && IsBaseOf(s, rank, r, c)
    {
    }
  }

  /** The base b of derived pointer n becomes live; if its turn is past, its record is added now. */
  lemma UptoBase(s: Site, rank: map<NodeId, nat>, live0: set<nat>, live: set<nat>, n: nat, omap: seq<Record>, b: nat)
    requires Upto(s, rank, live0, live, n, omap) && CopiesEnd(s, rank) && n in live0 && IsBaseOf(s, rank, n, b)
    requires IsPlain(s, b) && b !in live
    ensures Upto(s, rank, live0, live + {b}, n, if b < n then omap + [Record(OOP_VALUE, s.vm[b], NO_REG)] else omap)
  {
    assert UptoAt(s, rank, live0, live, n, omap);
    LiveBase(s, rank, live0, live, n, b);
    if b < n {
      RecordsAppend(s, rank, live, n, live + {b}, n, omap, b, Record(OOP_VALUE, s.vm[b], NO_REG));
    } else {
      RecordsSkip(s, rank, live, n, live + {b}, n, omap);
    }
  }

  lemma LiveNext(s: Site, rank: map<NodeId, nat>, live0: set<nat>, live: set<nat>, n: nat, b: nat)
    requires CopiesEnd(s, rank) && LiveOk(s, rank, live0, live, n) && IsBaseOf(s, rank, n, b) && b in live
    ensures LiveOk(s, rank, live0, live, n + 1)
  {
    forall r: nat, c: nat | r in live && r < n + 1 && IsBaseOf(s, rank, r, c) ensures c in live {
      if r == n {
        BaseIsUnique(s, rank, n, b, c);
      }
    }
  }

  lemma DerivedAppended(s: Site, rank: map<NodeId, nat>, live: set<nat>, n: nat, omap: seq<Record>, b: nat)
    requires SiteOk(s, rank) && Records(s, rank, live, n, omap) && n in live && IsBaseOf(s, rank, n, b) && b in s.vm
    ensures Records(s, rank, live, n + 1, omap + [Record(DERIVED_OOP_VALUE, s.vm[n], s.vm[b])])
  {
    var e := Record(DERIVED_OOP_VALUE, s.vm[n], s.vm[b]);
    assert IsRecordOf(s, rank, n, e);
    RecordsAppend(s, rank, live, n, live, n + 1, omap, n, e);
  }

  /** Derived pointer n, whose base is live, is recorded. */
  lemma UptoDerived(s: Site, rank: map<NodeId, nat>, live0: set<nat>, live: set<nat>, n: nat, omap: seq<Record>, b: nat)
    requires Upto(s, rank, live0, live, n, omap) && CopiesEnd(s, rank) && n in live && IsBaseOf(s, rank, n, b)
    requires IsPlain(s, b) && b in live
    ensures Upto(s, rank, live0, live, n + 1, omap + [Record(DERIVED_OOP_VALUE, s.vm[n], s.vm[b])])
  {
    assert UptoAt(s, rank, live0, live, n, omap);
    LiveNext(s, rank, live0, live, n, b);
    DerivedAppended(s, rank, live, n, omap, b);
    IsUpto(s, rank, live0, live, n + 1, omap + [Record(DERIVED_OOP_VALUE, s.vm[n], s.vm[b])]);
  }

  /** The base of a live derived pointer is found by its pair, and is an oop. */
  lemma DerivedBase(s: Site, rank: map<NodeId, nat>, live0: set<nat>, live: set<nat>, n: nat, omap: seq<Record>)
    requires Upto(s, rank, live0, live, n, omap) && n in live && IsDerived(s, n)
    ensures CopiesEnd(s, rank) && n in live0 && HasPair(s, rank, s.defs[n])
    ensures forall i: nat :: IsPairFor(s, rank, s.defs[n], i) ==>
      s.pairs[i].1 in s.firstReg && IsBaseOf(s, rank, n, s.firstReg[s.pairs[i].1]) &&
        IsPlain(s, s.firstReg[s.pairs[i].1])
  {
    assert UptoAt(s, rank, live0, live, n, omap);
    BaseFound(s, rank, live0, n);
  }

  lemma BaseFound(s: Site, rank: map<NodeId, nat>, live0: set<nat>, r: nat)
    requires SiteOk(s, rank) && BasesOk(s, rank, live0) && r in live0 && IsDerived(s, r)
    ensures HasPair(s, rank, s.defs[r])
    ensures forall i: nat :: IsPairFor(s, rank, s.defs[r], i) ==>
      s.pairs[i].1 in s.firstReg && IsBaseOf(s, rank, r, s.firstReg[s.pairs[i].1]) &&
        IsPlain(s, s.firstReg[s.pairs[i].1])
  {
    var b: nat :| IsBaseOf(s, rank, r, b) && IsPlain(s, b);
    var j: nat :| IsPairFor(s, rank, s.defs[r], j) && s.pairs[j].1 in s.firstReg && s.firstReg[s.pairs[j].1] == b;
    forall i: nat | IsPairFor(s, rank, s.defs[r], i) ensures i == j {
      PairIsUnique(s, rank, s.defs[r], i, j);
    }
  }

  method RecordDerived(s: Site, ghost rank: map<NodeId, nat>, ghost live0: set<nat>, live: set<nat>, n: nat,
                       omap: seq<Record>)
    returns (live': set<nat>, omap': seq<Record>)
    requires Upto(s, rank, live0, live, n, omap) && n in live && IsDerived(s, n)
    ensures Upto(s, rank, live0, live', n + 1, omap')
  {
    live', omap' := live, omap;
    DerivedBase(s, rank, live0, live, n, omap);
    var i := FindPair(s, rank, s.defs[n]);
    var breg := s.firstReg[s.pairs[i.value].1];
    if breg !in live' {
      UptoBase(s, rank, live0, live', n, omap', breg);
      // The base is live from here on, whichever derived pointer asks next.
      live' := live' + {breg};
      // The walk is past the base.
      if breg < n {
        omap' := omap' + [Record(OOP_VALUE, s.vm[breg], NO_REG)];
      }
    }
    UptoDerived(s, rank, live0, live', n, omap', breg);
    omap' := omap' + [Record(DERIVED_OOP_VALUE, s.vm[n], s.vm[breg])];
  }

  ghost predicate IsIllegal(s: Site, r: nat) {
    IsDefined(s, r) && !LegalReg(s.vm[r]) &&
      ((s.types[s.defs[r]].Pointer? && r % 2 == 0) || s.types[s.defs[r]].NarrowOop?)
  }

  /** The record of a live register that is not a derived pointer, if it has one. */
  method RecordFor(s: Site, ghost rank: map<NodeId, nat>, n: nat) returns (e: Option<Record>, illegal: bool)
    requires SiteOk(s, rank) && IsDefined(s, n) && !IsDerived(s, n)
    ensures if e.Some? then IsRecordOf(s, rank, n, e.value) else !IsRecorded(s, n)
    ensures illegal == IsIllegal(s, n)
  {
    e, illegal := None, false;
    var r := s.vm[n];
    match s.types[s.defs[n]]
    case Pointer(_) =>
      if n % 2 == 1 {
        // The record of a register pair is that of its low half.
      } else if !LegalReg(r) {
        illegal := true;
      } else if s.defs[n] !in s.args {
        e := Some(Record(OOP_VALUE, r, NO_REG));
      }
    case NarrowOop =>
      if !LegalReg(r) {
        illegal := true;
      } else if s.defs[n] !in s.args {
        e := Some(Record(NARROWOOP_VALUE, r, NO_REG));
      }
    case Value =>
      if n in s.callees && s.callees[n] != NO_REG {
        e := Some(Record(CALLEE_SAVED_VALUE, r, s.callees[n]));
      }
  }

  lemma LiveIsDefined(s: Site, rank: map<NodeId, nat>, live0: set<nat>, live: set<nat>, n: nat, omap: seq<Record>)
    requires Upto(s, rank, live0, live, n, omap) && n in live
    ensures SiteOk(s, rank) && IsDefined(s, n) && (n !in live0 ==> !IsIllegal(s, n))
  {
    assert UptoAt(s, rank, live0, live, n, omap);
  }

  /** One register of the walk. */
  method RecordRegister(s: Site, ghost rank: map<NodeId, nat>, ghost live0: set<nat>, live: set<nat>, n: nat,
                        omap: seq<Record>)
    returns (live': set<nat>, omap': seq<Record>, illegal: bool)
    requires Upto(s, rank, live0, live, n, omap)
    ensures Upto(s, rank, live0, live', n + 1, omap') && illegal == (n in live0 && IsIllegal(s, n))
  {
    live', omap', illegal := live, omap, false;
    if n !in live {
      assert UptoAt(s, rank, live0, live, n, omap);
      UptoNext(s, rank, live0, live, n, omap, None);
      return;
    }
    LiveIsDefined(s, rank, live0, live, n, omap);
    var t := s.types[s.defs[n]];
    if t.Pointer? && n % 2 == 0 && LegalReg(s.vm[n]) && t.offset != 0 {
      live', omap' := RecordDerived(s, rank, live0, live, n, omap);
    } else {
      var e;
      e, illegal := RecordFor(s, rank, n);
      UptoNext(s, rank, live0, live, n, omap, e);
      if e.Some? {
        omap' := omap + [e.value];
      }
    }
  }

  lemma AllBasesRecorded(s: Site, rank: map<NodeId, nat>, live0: set<nat>, live: set<nat>, omap: seq<Record>)
    requires Upto(s, rank, live0, live, s.maxReg, omap)
    ensures BasesRecorded(omap)
  {
    assert UptoAt(s, rank, live0, live, s.maxReg, omap);
    forall i: nat | i < |omap| && omap[i].t == DERIVED_OOP_VALUE
      ensures exists j :: 0 <= j < |omap| && omap[j].t == OOP_VALUE && omap[j].reg == omap[i].content
    {
      RecordsHaveBases(s, rank, live0, live, omap, i);
    }
  }

  /**
   * The map has what the collector needs to know of live register r: an oop as an oop,
     a derived pointer with a base that
   * is an oop, a narrow oop as a narrow oop, and the caller's value of a callee-saved register.  Arguments of the call,
   * the high halves of register pairs and registers without a legal name are left out.
   */
  ghost predicate RightlyRecorded(s: Site, r: nat, omap: seq<Record>) {
    r in s.vm && r in s.defs && s.defs[r] in s.types &&
    match s.types[s.defs[r]]
    case Pointer(offset) => r % 2 == 0 && LegalReg(s.vm[r]) ==>
      if offset != 0 then HasDerived(s.vm[r], omap)
      else s.defs[r] in s.args || Record(OOP_VALUE, s.vm[r], NO_REG) in omap
    case NarrowOop =>
      LegalReg(s.vm[r]) ==> s.defs[r] in s.args || Record(NARROWOOP_VALUE, s.vm[r], NO_REG) in omap
    case Value =>
      r in s.callees && s.callees[r] != NO_REG ==> Record(CALLEE_SAVED_VALUE, s.vm[r], s.callees[r]) in omap
  }

  /** A derived pointer is recorded with a base that is recorded as an oop. */
  ghost predicate HasDerived(reg: int, omap: seq<Record>) {
    exists base: int :: Record(DERIVED_OOP_VALUE, reg, base) in omap && Record(OOP_VALUE, base, NO_REG) in omap
  }

  /** The type of record e is that of what register r holds. */
  ghost predicate RecordFits(s: Site, r: nat, e: Record) {
    && r in s.vm && r in s.defs && s.defs[r] in s.types && e.reg == s.vm[r]
    && match s.types[s.defs[r]]
       case Pointer(offset) => e.t == if offset == 0 then OOP_VALUE else DERIVED_OOP_VALUE
       case NarrowOop => e.t == NARROWOOP_VALUE
       case Value => e.t == CALLEE_SAVED_VALUE && r in s.callees && e.content == s.callees[r]
  }

  /** It is what some live register holds. */
  ghost predicate FitsLive(s: Site, live: set<nat>, e: Record) {
    exists r: nat :: r in live && r < s.maxReg && RecordFits(s, r, e)
  }

  lemma RecordIsFit(s: Site, rank: map<NodeId, nat>, live: set<nat>, omap: seq<Record>, i: nat)
    requires SiteOk(s, rank) && Records(s, rank, live, s.maxReg, omap) && i < |omap|
    ensures FitsLive(s, live, omap[i])
  {
    assert FromLive(s, rank, live, s.maxReg, omap[i]);
    var r: nat :| r in live && r < s.maxReg && IsRecordOf(s, rank, r, omap[i]);
    RecordOfFits(s, rank, r, omap[i]);
  }

  lemma RecordOfFits(s: Site, rank: map<NodeId, nat>, r: nat, e: Record)
    requires SiteOk(s, rank) && IsRecordOf(s, rank, r, e)
    ensures RecordFits(s, r, e)
  {
  }

  lemma OopRecord(s: Site, rank: map<NodeId, nat>, live: set<nat>, omap: seq<Record>, j: nat)
    requires SiteOk(s, rank) && Records(s, rank, live, s.maxReg, omap) && j < |omap| && omap[j].t == OOP_VALUE
    ensures omap[j] == Record(OOP_VALUE, omap[j].reg, NO_REG)
  {
    assert FromLive(s, rank, live, s.maxReg, omap[j]);
  }

  lemma DerivedIsRecorded(s: Site, rank: map<NodeId, nat>, live0: set<nat>, live: set<nat>, omap: seq<Record>, i: nat)
    requires UptoAt(s, rank, live0, live, s.maxReg, omap) && i < |omap| && omap[i].t == DERIVED_OOP_VALUE
    ensures HasDerived(omap[i].reg, omap)
  {
    RecordsHaveBases(s, rank, live0, live, omap, i);
    var j :| 0 <= j < |omap| && omap[j].t == OOP_VALUE && omap[j].reg == omap[i].content;
    OopRecord(s, rank, live, omap, j);
    assert omap[i] == Record(DERIVED_OOP_VALUE, omap[i].reg, omap[i].content) && omap[i] in omap && omap[j] in omap;
  }

  lemma LiveIsRecorded(s: Site, rank: map<NodeId, nat>, live0: set<nat>, live: set<nat>, omap: seq<Record>, r: nat)
    requires UptoAt(s, rank, live0, live, s.maxReg, omap) && r in live0 && r < s.maxReg
    ensures RightlyRecorded(s, r, omap)
  {
    if IsRecorded(s, r) {
      var i :| 0 <= i < |omap| && IsRecordOf(s, rank, r, omap[i]);
      if IsDerived(s, r) {
        DerivedRecordReg(s, rank, r, omap[i]);
        DerivedIsRecorded(s, rank, live0, live, omap, i);
      } else {
        assert omap[i] in omap;
        PlainIsRecorded(s, rank, r, omap[i], omap);
      }
    }
  }

  lemma DerivedRecordReg(s: Site, rank: map<NodeId, nat>, r: nat, e: Record)
    requires SiteOk(s, rank) && IsRecordOf(s, rank, r, e) && IsDerived(s, r)
    ensures e.t == DERIVED_OOP_VALUE && e.reg == s.vm[r]
  {
  }

  lemma PlainIsRecorded(s: Site, rank: map<NodeId, nat>, r: nat, e: Record, omap: seq<Record>)
    requires SiteOk(s, rank) && IsRecordOf(s, rank, r, e) && !IsDerived(s, r) && e in omap
    ensures RightlyRecorded(s, r, omap)
  {
  }

  /**
   * build_oop_map: the map has exactly the records of the live registers and of the bases of live derived
   * pointers, no location twice, and the base of every derived pointer as an oop, although bases become live
   * while the registers are walked.
   */
  method BuildOopMap(s: Site, ghost rank: map<NodeId, nat>, live0: set<nat>)
    returns (omap: seq<Record>, live: set<nat>, illegal: bool)
    requires SiteOk(s, rank) && BasesOk(s, rank, live0) && forall r :: r in live0 ==> IsDefined(s, r)
    ensures LiveOk(s, rank, live0, live, s.maxReg) && Records(s, rank, live, s.maxReg, omap)
    ensures BasesRecorded(omap)
    ensures illegal <==> exists r :: r in live0 && IsIllegal(s, r)
    ensures forall r :: r in live0 && r < s.maxReg ==> RightlyRecorded(s, r, omap)
    ensures forall i :: 0 <= i < |omap| ==> FitsLive(s, live, omap[i])
  {
    omap, live, illegal := [], live0, false;
    assert UptoAt(s, rank, live0, live, 0, omap);
    for reg := 0 to s.maxReg
      invariant Upto(s, rank, live0, live, reg, omap)
      invariant illegal <==> exists r :: r in live0 && r < reg && IsIllegal(s, r)
    {
      var bad;
      live, omap, bad := RecordRegister(s, rank, live0, live, reg, omap);
      illegal := illegal || bad;
    }
    assert UptoAt(s, rank, live0, live, s.maxReg, omap);
    AllBasesRecorded(s, rank, live0, live, omap);
    forall r | r in live0 && r < s.maxReg ensures RightlyRecorded(s, r, omap) {
      LiveIsRecorded(s, rank, live0, live, omap, r);
    }
    forall i | 0 <= i < |omap| ensures FitsLive(s, live, omap[i]) {
      RecordIsFit(s, rank, live, omap, i);
    }
  }
}
