/**
 * Serialised debug information (code/debugInfo.cpp): scope values are written to
 * and read from a token stream.  Objects may be shared and cyclic: the writer
 * emits an object once and refers to it by id afterwards, the reader keeps a pool.
 */
module DebugInfo {
  import opened Lists
  import opened Wrappers

  /** An object: an address for the writer, a pool index for the reader. */
  type Ref = nat

  datatype Token = Word(n: int) | Float(d: real)

  datatype ScopeValue =
    | Location(location: int)
    | ConstantInt(value: int)
    | ConstantOop(index: int)
    | ConstantLong(long: int)
    | ConstantDouble(double: real)
    | Object(ref: Ref)
    | Marker

  datatype Kind = Plain | AutoBox | OnStack(location: int, fieldLength: int)

  datatype ObjectValue = ObjectValue(kind: Kind, id: int, klass: int, fields: seq<ScopeValue>)

  const LOCATION_CODE := 0
  const CONSTANT_INT_CODE := 1
  const CONSTANT_OOP_CODE := 2
  const CONSTANT_LONG_CODE := 3
  const CONSTANT_DOUBLE_CODE := 4
  const OBJECT_CODE := 5
  const OBJECT_ID_CODE := 6
  const AUTO_BOX_OBJECT_CODE := 7
  const MARKER_CODE := 8
  const STACK_OBJECT_CODE := 9

  function CodeOf(k: Kind): int {
    match k
    case Plain => OBJECT_CODE
    case AutoBox => AUTO_BOX_OBJECT_CODE
    case OnStack(_, _) => STACK_OBJECT_CODE
  }

  // ----- Object graphs -----

  type Graph = map<Ref, ObjectValue>

  predicate Within(refs: set<Ref>, v: ScopeValue) {
    v.Object? ==> v.ref in refs
  }

  predicate AllWithin(refs: set<Ref>, vs: seq<ScopeValue>) {
    forall i :: 0 <= i < |vs| ==> Within(refs, vs[i])
  }

  /** Fields refer to objects of the graph, and ids tell objects apart. */
  ghost predicate WellFormed(g: Graph) {
    && (forall r :: r in g ==> AllWithin(g.Keys, g[r].fields))
    && (forall r, q :: r in g && q in g && g[r].id == g[q].id ==> r == q)
  }

  // ----- Writing -----

  datatype Written = Written(tokens: seq<Token>, seen: seq<Ref>)

  /** write_on for a value that is not an object. */
  function Plainly(v: ScopeValue): seq<Token>
    requires !v.Object?
  {
    match v
    case Location(l) => [Word(LOCATION_CODE), Word(l)]
    case ConstantInt(n) => [Word(CONSTANT_INT_CODE), Word(n)]
    case ConstantOop(i) => [Word(CONSTANT_OOP_CODE), Word(i)]
    case ConstantLong(n) => [Word(CONSTANT_LONG_CODE), Word(n)]
    case ConstantDouble(d) => [Word(CONSTANT_DOUBLE_CODE), Float(d)]
    case Marker => [Word(MARKER_CODE)]
  }

  function Header(o: ObjectValue): seq<Token> {
    [Word(CodeOf(o.kind)), Word(o.id), Word(CONSTANT_OOP_CODE), Word(o.klass), Word(|o.fields|)]
  }

  /** What a stack object adds behind its fields. */
  function Trailer(k: Kind): seq<Token> {
    if k.OnStack? then [Word(k.location), Word(CONSTANT_INT_CODE), Word(k.fieldLength)] else []
  }

  /** The tokens for v when the objects in seen have been written, and the objects written after it. */
  function Write(g: Graph, seen: seq<Ref>, v: ScopeValue): (w: Written)
    requires WellFormed(g) && Within(g.Keys, v)
    ensures seen <= w.seen
    decreases g.Keys - Elems(seen), 0
  {
    if !v.Object? then Written(Plainly(v), seen)
    else if v.ref in seen then Written([Word(OBJECT_ID_CODE), Word(g[v.ref].id)], seen)
    else
      var o := g[v.ref];
      assert v.ref in g.Keys - Elems(seen) && v.ref !in g.Keys - Elems(seen + [v.ref]);
      var w := WriteAll(g, seen + [v.ref], o.fields);
      Written(Header(o) + w.tokens + Trailer(o.kind), w.seen)
  }

  function WriteAll(g: Graph, seen: seq<Ref>, vs: seq<ScopeValue>): (w: Written)
    requires WellFormed(g) && AllWithin(g.Keys, vs)
    ensures seen <= w.seen
    decreases g.Keys - Elems(seen), 1 + |vs|
  {
    if vs == [] then Written([], seen)
    else
      var w := Write(g, seen, vs[0]);
      assert g.Keys - Elems(w.seen) <= g.Keys - Elems(seen);
      var w' := WriteAll(g, w.seen, vs[1..]);
      Written(w.tokens + w'.tokens, w'.seen)
  }

  // ----- Reading -----

  type Pool = seq<ObjectValue>

  datatype Result<T> = Malformed | Read(value: T, rest: seq<Token>, pool: Pool)

  /** get_cached_object: the newest object of the pool with the given id. */
  function Cached(pool: Pool, id: int): (k: Option<Ref>)
    ensures k.Some? ==> k.value < |pool| && pool[k.value].id == id
    ensures k.Some? ==> forall j :: k.value < j < |pool| ==> pool[j].id != id
    ensures k.None? ==> forall j :: 0 <= j < |pool| ==> pool[j].id != id
  {
    if pool == [] then None
    else if pool[|pool| - 1].id == id then Some(|pool| - 1)
    else Cached(pool[..|pool| - 1], id)
  }

  function KindFor(code: int): Kind {
    if code == AUTO_BOX_OBJECT_CODE then AutoBox
    else if code == STACK_OBJECT_CODE then OnStack(0, 0)
    else Plain
  }

  /** ScopeValue::read_from */
  function ReadFrom(ts: seq<Token>, pool: Pool): (r: Result<ScopeValue>)
    ensures r.Read? ==> |r.rest| < |ts| && |pool| <= |r.pool|
    decreases |ts|, 0
  {
    if |ts| < 1 || !ts[0].Word? then Malformed
    else
      var code := ts[0].n;
      if code == MARKER_CODE then Read(Marker, ts[1..], pool)
      else if |ts| < 2 then Malformed
      else if code == CONSTANT_DOUBLE_CODE then
        if ts[1].Float? then Read(ConstantDouble(ts[1].d), ts[2..], pool) else Malformed
      else if !ts[1].Word? then Malformed
      else if code == LOCATION_CODE then Read(Location(ts[1].n), ts[2..], pool)
      else if code == CONSTANT_INT_CODE then Read(ConstantInt(ts[1].n), ts[2..], pool)
      else if code == CONSTANT_OOP_CODE then Read(ConstantOop(ts[1].n), ts[2..], pool)
      else if code == CONSTANT_LONG_CODE then Read(ConstantLong(ts[1].n), ts[2..], pool)
      else if code == OBJECT_ID_CODE then
        match Cached(pool, ts[1].n)
        case None => Malformed
        case Some(k) => Read(Object(k), ts[2..], pool)
      else if code == OBJECT_CODE || code == AUTO_BOX_OBJECT_CODE || code == STACK_OBJECT_CODE then
        ReadObject(code, ts[1..], pool)
      else Malformed
  }

  /** read_object_value: the object goes into the pool before its fields are read. */
  function ReadObject(code: int, ts: seq<Token>, pool: Pool): (r: Result<ScopeValue>)
    ensures r.Read? ==> |r.rest| <= |ts| && |pool| <= |r.pool|
    decreases |ts|, 1
  {
    if |ts| < 4 || !ts[0].Word? || ts[1] != Word(CONSTANT_OOP_CODE) || !ts[2].Word? || !ts[3].Word? then Malformed
    else
      var k := |pool|;
      match ReadFields(ts[3].n, k, ts[4..], pool + [ObjectValue(KindFor(code), ts[0].n, ts[2].n, [])])
      case Malformed => Malformed
      case Read(_, rest, pool') =>
        if code != STACK_OBJECT_CODE then Read(Object(k), rest, pool')
        else if |rest| < 3 || !rest[0].Word? || rest[1] != Word(CONSTANT_INT_CODE) || !rest[2].Word? then Malformed
        else Read(Object(k), rest[3..], pool'[k := pool'[k].(kind := OnStack(rest[0].n, rest[2].n))])
  }

  /** Reads n values and appends them to the fields of pool object k. */
  function ReadFields(n: int, k: Ref, ts: seq<Token>, pool: Pool): (r: Result<()>)
    requires k < |pool|
    ensures r.Read? ==> |r.rest| <= |ts| && |pool| <= |r.pool|
    decreases |ts|, 2
  {
    if n <= 0 then Read((), ts, pool)
    else
      match ReadFrom(ts, pool)
      case Malformed => Malformed
      case Read(v, rest, pool') => ReadFields(n - 1, k, rest, pool'[k := pool'[k].(fields := pool'[k].fields + [v])])
  }

  // ----- What the writer has seen -----

  /** Objects from position k of seen on have all the objects they refer to in seen. */
  ghost predicate ClosedFrom(g: Graph, k: nat, seen: seq<Ref>)
    requires Elems(seen) <= g.Keys
  {
    forall i :: k <= i < |seen| ==> AllWithin(Elems(seen), g[seen[i]].fields)
  }

  ghost predicate Marked(g: Graph, seen: seq<Ref>) {
    NoDup(seen) && Elems(seen) <= g.Keys
  }

  lemma ElemsMonotone(s: seq<Ref>, s': seq<Ref>)
    requires s <= s'
    ensures Elems(s) <= Elems(s')
  {
    assert forall i :: 0 <= i < |s| ==> s[i] == s'[i];
  }

  /** Writing v marks v and, with every object it marks, all that the object refers to. */
  lemma {:induction false} WriteMarks(g: Graph, seen: seq<Ref>, v: ScopeValue)
    requires WellFormed(g) && Within(g.Keys, v) && Marked(g, seen)
    ensures var w := Write(g, seen, v); Marked(g, w.seen) && Within(Elems(w.seen), v) && ClosedFrom(g, |seen|, w.seen)
    decreases g.Keys - Elems(seen), 0
  {
    if v.Object? && v.ref !in seen {
      assert v.ref in g.Keys - Elems(seen) && v.ref !in g.Keys - Elems(seen + [v.ref]);
      WriteAllMarks(g, seen + [v.ref], g[v.ref].fields);
      var w := WriteAll(g, seen + [v.ref], g[v.ref].fields);
      assert w.seen[|seen|] == v.ref;
    }
  }

  lemma {:induction false} WriteAllMarks(g: Graph, seen: seq<Ref>, vs: seq<ScopeValue>)
    requires WellFormed(g) && AllWithin(g.Keys, vs) && Marked(g, seen)
    ensures var w := WriteAll(g, seen, vs);
      Marked(g, w.seen) && AllWithin(Elems(w.seen), vs) && ClosedFrom(g, |seen|, w.seen)
    decreases g.Keys - Elems(seen), 1 + |vs|
  {
    if vs != [] {
      WriteMarks(g, seen, vs[0]);
      var w := Write(g, seen, vs[0]);
      ElemsMonotone(seen, w.seen);
      WriteAllMarks(g, w.seen, vs[1..]);
      var w' := WriteAll(g, w.seen, vs[1..]);
      ElemsMonotone(w.seen, w'.seen);
      assert forall i :: 0 <= i < |w.seen| ==> w'.seen[i] == w.seen[i];
    }
  }

  // ----- The graph as the reader sees it -----

  /** The reader's name for object r: its position in the order of writing. */
  ghost function PoolIndex(seen: seq<Ref>, r: Ref): (k: Ref)
    ensures r in seen ==> k < |seen| && seen[k] == r
  {
    if r in seen then var k :| 0 <= k < |seen| && seen[k] == r; k else 0
  }

  ghost function Image(seen: seq<Ref>, v: ScopeValue): ScopeValue {
    if v.Object? then Object(PoolIndex(seen, v.ref)) else v
  }

  ghost function ImageAll(seen: seq<Ref>, vs: seq<ScopeValue>): seq<ScopeValue> {
    seq(|vs|, i requires 0 <= i < |vs| => Image(seen, vs[i]))
  }

  ghost function ImageOf(seen: seq<Ref>, o: ObjectValue): ObjectValue {
    o.(fields := ImageAll(seen, o.fields))
  }

  lemma ImageKept(seen: seq<Ref>, seen': seq<Ref>, vs: seq<ScopeValue>)
    requires seen <= seen' && NoDup(seen') && AllWithin(Elems(seen), vs)
    ensures ImageAll(seen', vs) == ImageAll(seen, vs)
  {
    forall i | 0 <= i < |vs| ensures Image(seen', vs[i]) == Image(seen, vs[i]) {
      assert Within(Elems(seen), vs[i]);
      if vs[i].Object? {
        assert seen'[PoolIndex(seen, vs[i].ref)] == vs[i].ref;
      }
    }
  }

  /** Reader and writer are in step: the pool holds the ids of the objects seen, in the same order. */
  ghost predicate Lockstep(g: Graph, seen: seq<Ref>, pool: Pool) {
    && Marked(g, seen)
    && |pool| == |seen|
    && forall k :: 0 <= k < |seen| ==> seen[k] in g && pool[k].id == g[seen[k]].id
  }

  /** Pool objects from k on are exact images of the written ones. */
  ghost predicate Rebuilt(g: Graph, k: nat, seen: seq<Ref>, pool: Pool)
    requires |pool| == |seen| && forall i :: 0 <= i < |seen| ==> seen[i] in g
  {
    forall i :: k <= i < |seen| ==> pool[i] == ImageOf(seen, g[seen[i]])
  }

  lemma RebuiltKept(g: Graph, k: nat, seen: seq<Ref>, pool: Pool, seen': seq<Ref>, pool': Pool)
    requires Lockstep(g, seen, pool) && Rebuilt(g, k, seen, pool) && ClosedFrom(g, k, seen)
    requires seen <= seen' && Marked(g, seen') && |pool'| == |seen'| && forall i :: 0 <= i < |seen'| ==> seen'[i] in g
    requires forall i :: k <= i < |seen| ==> pool'[i] == pool[i]
    requires Rebuilt(g, |seen|, seen', pool')
    ensures Rebuilt(g, k, seen', pool')
  {
    forall i | k <= i < |seen| ensures pool'[i] == ImageOf(seen', g[seen'[i]]) {
      assert seen'[i] == seen[i];
      ImageKept(seen, seen', g[seen[i]].fields);
    }
  }

  // ----- Round trip -----

  /** The outcome of reading a written value back. */
  ghost predicate ReadBack(g: Graph, pool: Pool, v: ScopeValue, seen': seq<Ref>, rest: seq<Token>,
                           r: Result<ScopeValue>)
  {
    && r.Read? && r.value == Image(seen', v) && r.rest == rest
    && Lockstep(g, seen', r.pool) && pool <= r.pool && Rebuilt(g, |pool|, seen', r.pool)
  }

  /** ... and fields of pool object k. */
  ghost predicate FieldsBack(g: Graph, pool: Pool, k: Ref, vs: seq<ScopeValue>, seen': seq<Ref>, rest: seq<Token>,
                             r: Result<()>)
    requires k < |pool|
  {
    && r.Read? && r.rest == rest
    && Lockstep(g, seen', r.pool) && |pool| <= |r.pool| && Rebuilt(g, |pool|, seen', r.pool)
    && (forall i :: 0 <= i < |pool| && i != k ==> r.pool[i] == pool[i])
    && r.pool[k] == pool[k].(fields := pool[k].fields + ImageAll(seen', vs))
  }

  lemma PlainRoundTrip(v: ScopeValue, pool: Pool, rest: seq<Token>)
    requires !v.Object?
    ensures ReadFrom(Plainly(v) + rest, pool) == Read(v, rest, pool)
  {
    assert (Plainly(v) + rest)[|Plainly(v)|..] == rest;
  }

  lemma IdRoundTrip(g: Graph, seen: seq<Ref>, r: Ref, pool: Pool, rest: seq<Token>)
    requires WellFormed(g) && Lockstep(g, seen, pool) && r in seen
    ensures ReadFrom([Word(OBJECT_ID_CODE), Word(g[r].id)] + rest, pool) == Read(Object(PoolIndex(seen, r)), rest, pool)
  {
    var ts := [Word(OBJECT_ID_CODE), Word(g[r].id)] + rest;
    assert ts[2..] == rest;
    assert pool[PoolIndex(seen, r)].id == g[r].id;
    var k := Cached(pool, g[r].id);
    assert k.Some? && seen[k.value] == r;
  }

  /** Behind its code, a header holds what read_object_value looks for. */
  lemma HeaderSplits(o: ObjectValue, more: seq<Token>)
    ensures var ts := Header(o) + more;
      && |ts| >= 5 && ts[0] == Word(CodeOf(o.kind)) && ts[1..][0] == Word(o.id) && ts[1..][1] == Word(CONSTANT_OOP_CODE)
      && ts[1..][2] == Word(o.klass) && ts[1..][3] == Word(|o.fields|) && ts[1..][4..] == more
  {
    var ts := Header(o) + more;
    assert ts[..5] == Header(o) && ts[5..] == more;
    assert forall i :: 0 <= i < 4 ==> ts[1..][i] == ts[..5][i + 1];
    assert ts[1..][4..] == ts[5..];
  }

  /** What read_object_value makes of the pool once it has the fields. */
  function Finished(k: Ref, kind: Kind, pool: Pool): Pool
    requires k < |pool|
  {
    pool[k := pool[k].(kind := if kind.OnStack? then kind else pool[k].kind)]
  }

  /** The blank object that goes into the pool first. */
  function Blank(o: ObjectValue): ObjectValue {
    ObjectValue(KindFor(CodeOf(o.kind)), o.id, o.klass, [])
  }

  /** Reading an object goes through its header, its fields and its trailer. */
  lemma ObjectSplits(o: ObjectValue, more: seq<Token>, rest: seq<Token>, pool: Pool)
    ensures var r := ReadFields(|o.fields|, |pool|, more, pool + [Blank(o)]);
      r.Read? && r.rest == Trailer(o.kind) + rest ==>
        ReadFrom(Header(o) + more, pool) == Read(Object(|pool|), rest, Finished(|pool|, o.kind, r.pool))
  {
    HeaderSplits(o, more);
    var ts := Header(o) + more;
    assert ReadFrom(ts, pool) == ReadObject(CodeOf(o.kind), ts[1..], pool);
    TrailerSplits(o.kind, rest);
  }

  lemma TrailerSplits(k: Kind, rest: seq<Token>)
    ensures var ts := Trailer(k) + rest;
      if k.OnStack? then |ts| >= 3 && ts[3..] == rest && ts[0] == Word(k.location) &&
        ts[1] == Word(CONSTANT_INT_CODE) && ts[2] == Word(k.fieldLength)
      else ts == rest
  {
    if k.OnStack? {
      assert (Trailer(k) + rest)[3..] == rest;
    }
  }

  /**
   * Debug information round trip: whatever was written before, reading a written
   * value gives back the value, leaves exactly the rest of the stream, adds to the
   * pool exact images of the objects written, and stays in step with the writer.
   */
  lemma {:induction false} RoundTrip(g: Graph, seen: seq<Ref>, v: ScopeValue, pool: Pool, rest: seq<Token>)
    requires WellFormed(g) && Within(g.Keys, v) && Lockstep(g, seen, pool)
    ensures var w := Write(g, seen, v); ReadBack(g, pool, v, w.seen, rest, ReadFrom(w.tokens + rest, pool))
    decreases g.Keys - Elems(seen), 1
  {
    if !v.Object? {
      PlainRoundTrip(v, pool, rest);
    } else if v.ref in seen {
      IdRoundTrip(g, seen, v.ref, pool, rest);
    } else {
      NewObjectRoundTrip(g, seen, v.ref, pool, rest);
    }
  }

  lemma {:induction false} NewObjectRoundTrip(g: Graph, seen: seq<Ref>, r: Ref, pool: Pool, rest: seq<Token>)
    requires WellFormed(g) && r in g && Lockstep(g, seen, pool) && r !in seen
    ensures var w := Write(g, seen, Object(r));
      ReadBack(g, pool, Object(r), w.seen, rest, ReadFrom(w.tokens + rest, pool))
    decreases g.Keys - Elems(seen), 0
  {
    ObjectWritten(g, seen, r, rest);
    RoundTripAll(g, seen + [r], g[r].fields, pool + [Blank(g[r])], |pool|, Trailer(g[r].kind) + rest);
    ObjectBack(g, seen, r, pool, WriteAll(g, seen + [r], g[r].fields), rest);
  }

  lemma ObjectWritten(g: Graph, seen: seq<Ref>, r: Ref, rest: seq<Token>)
    requires WellFormed(g) && r in g && r !in seen
    ensures g.Keys - Elems(seen + [r]) < g.Keys - Elems(seen)
    ensures var w := WriteAll(g, seen + [r], g[r].fields);
      && Write(g, seen, Object(r)).tokens + rest == Header(g[r]) + (w.tokens + (Trailer(g[r].kind) + rest))
      && Write(g, seen, Object(r)).seen == w.seen
  {
    assert r in g.Keys - Elems(seen) && r !in g.Keys - Elems(seen + [r]);
    var h, f, t := Header(g[r]), WriteAll(g, seen + [r], g[r].fields).tokens, Trailer(g[r].kind);
    assert h + f + t + rest == h + (f + (t + rest));
  }

  /** When the fields read back, so does the object. */
  lemma ObjectBack(g: Graph, seen: seq<Ref>, r: Ref, pool: Pool, w: Written, rest: seq<Token>)
    requires r in g && Lockstep(g, seen, pool) && seen + [r] <= w.seen
    requires var more := w.tokens + (Trailer(g[r].kind) + rest);
      FieldsBack(g, pool + [Blank(g[r])], |pool|, g[r].fields, w.seen, Trailer(g[r].kind) + rest,
                 ReadFields(|g[r].fields|, |pool|, more, pool + [Blank(g[r])]))
    ensures ReadBack(g, pool, Object(r), w.seen, rest,
      ReadFrom(Header(g[r]) + (w.tokens + (Trailer(g[r].kind) + rest)), pool))
  {
    var more := w.tokens + (Trailer(g[r].kind) + rest);
    ObjectSplits(g[r], more, rest, pool);
    ObjectRebuilt(g, seen, r, pool, w.seen, Trailer(g[r].kind) + rest,
      ReadFields(|g[r].fields|, |pool|, more, pool + [Blank(g[r])]));
  }

  /** With its fields read and its kind completed, the newest object of the pool is an image of r. */
  lemma ObjectRebuilt(g: Graph, seen: seq<Ref>, r: Ref, pool: Pool, seen': seq<Ref>, rest: seq<Token>, f: Result<()>)
    requires r in g && Lockstep(g, seen, pool) && seen + [r] <= seen'
    requires FieldsBack(g, pool + [Blank(g[r])], |pool|, g[r].fields, seen', rest, f)
    ensures var p := Finished(|pool|, g[r].kind, f.pool);
      Lockstep(g, seen', p) && pool <= p && Rebuilt(g, |pool|, seen', p) && Image(seen', Object(r)) == Object(|pool|)
  {
    assert seen'[|seen|] == r && PoolIndex(seen', r) == |pool|;
    var p := Finished(|pool|, g[r].kind, f.pool);
    assert p[|pool|] == ImageOf(seen', g[r]);
  }

  lemma {:induction false} RoundTripAll(g: Graph, seen: seq<Ref>, vs: seq<ScopeValue>, pool: Pool, k: Ref,
                                        rest: seq<Token>)
    requires WellFormed(g) && AllWithin(g.Keys, vs) && Lockstep(g, seen, pool) && k < |pool|
    ensures var w := WriteAll(g, seen, vs);
      FieldsBack(g, pool, k, vs, w.seen, rest, ReadFields(|vs|, k, w.tokens + rest, pool))
    decreases g.Keys - Elems(seen), 2 + |vs|
  {
    if vs == [] {
      assert [] + rest == rest;
    } else {
      var w := Write(g, seen, vs[0]);
      var w' := WriteAll(g, w.seen, vs[1..]);
      assert w.tokens + w'.tokens + rest == w.tokens + (w'.tokens + rest);
      ElemsMonotone(seen, w.seen);
      RoundTrip(g, seen, vs[0], pool, w'.tokens + rest);
      var r := ReadFrom(w.tokens + (w'.tokens + rest), pool);
      var pool' := r.pool[k := r.pool[k].(fields := r.pool[k].fields + [r.value])];
      RoundTripAll(g, w.seen, vs[1..], pool', k, rest);
      AppendField(g, seen, vs, pool, k, rest, r, pool');
    }
  }

  lemma FirstImage(seen: seq<Ref>, seen': seq<Ref>, vs: seq<ScopeValue>)
    requires vs != [] && seen <= seen' && NoDup(seen') && Within(Elems(seen), vs[0])
    ensures ImageAll(seen', vs) == [Image(seen, vs[0])] + ImageAll(seen', vs[1..])
  {
    ImageKept(seen, seen', [vs[0]]);
    assert Image(seen', vs[0]) == ImageAll(seen', [vs[0]])[0] == ImageAll(seen, [vs[0]])[0];
    assert ImageAll(seen', vs) == [Image(seen', vs[0])] + ImageAll(seen', vs[1..]);
  }

  lemma AppendField(g: Graph, seen: seq<Ref>, vs: seq<ScopeValue>, pool: Pool, k: Ref, rest: seq<Token>,
                    r: Result<ScopeValue>, pool': Pool)
    requires WellFormed(g) && AllWithin(g.Keys, vs) && Lockstep(g, seen, pool) && k < |pool| && vs != []
    requires var w := Write(g, seen, vs[0]); var w' := WriteAll(g, w.seen, vs[1..]);
      && ReadBack(g, pool, vs[0], w.seen, w'.tokens + rest, r)
      && pool' == r.pool[k := r.pool[k].(fields := r.pool[k].fields + [r.value])]
      && FieldsBack(g, pool', k, vs[1..], w'.seen, rest, ReadFields(|vs| - 1, k, w'.tokens + rest, pool'))
    ensures var w := WriteAll(g, seen, vs);
      FieldsBack(g, pool, k, vs, w.seen, rest,
        ReadFields(|vs| - 1, k, WriteAll(g, Write(g, seen, vs[0]).seen, vs[1..]).tokens + rest, pool'))
  {
    var w := Write(g, seen, vs[0]);
    var w' := WriteAll(g, w.seen, vs[1..]);
    var pool'' := ReadFields(|vs| - 1, k, w'.tokens + rest, pool').pool;
    WriteMarks(g, seen, vs[0]);
    FirstImage(w.seen, w'.seen, vs);
    assert pool''[k].fields == pool[k].fields + ImageAll(w'.seen, vs);
    RebuiltKept(g, |pool|, w.seen, r.pool, w'.seen, pool'');
  }

  /** Starting from nothing, the reader rebuilds the whole graph below v, up to the names of objects. */
  lemma RoundTripGraph(g: Graph, v: ScopeValue, rest: seq<Token>)
    requires WellFormed(g) && Within(g.Keys, v)
    ensures var w := Write(g, [], v); var r := ReadFrom(w.tokens + rest, []);
      && r.Read? && r.rest == rest && r.value == Image(w.seen, v)
      && Marked(g, w.seen) && Within(Elems(w.seen), v) && ClosedFrom(g, 0, w.seen)
      && |r.pool| == |w.seen| && forall k :: 0 <= k < |w.seen| ==> r.pool[k] == ImageOf(w.seen, g[w.seen[k]])
  {
    RoundTrip(g, [], v, [], rest);
    WriteMarks(g, [], v);
  }

  // ----- Monitors -----

  datatype Monitor = Monitor(owner: ScopeValue, basicLock: int, eliminated: bool)

  function WriteMonitor(g: Graph, seen: seq<Ref>, m: Monitor): (w: Written)
    requires WellFormed(g) && Within(g.Keys, m.owner)
  {
    var w := Write(g, seen, m.owner);
    Written([Word(m.basicLock)] + w.tokens + [Word(if m.eliminated then 1 else 0)], w.seen)
  }

  function ReadMonitor(ts: seq<Token>, pool: Pool): (r: Result<Monitor>) {
    if |ts| < 1 || !ts[0].Word? then Malformed
    else
      match ReadFrom(ts[1..], pool)
      case Malformed => Malformed
      case Read(owner, rest, pool') =>
        if |rest| < 1 || !rest[0].Word? then Malformed
        else Read(Monitor(owner, ts[0].n, rest[0].n != 0), rest[1..], pool')
  }

  lemma MonitorSplits(lock: int, owner: seq<Token>, flag: seq<Token>, rest: seq<Token>)
    ensures var ts := [Word(lock)] + owner + flag + rest;
      |ts| >= 1 && ts[0] == Word(lock) && ts[1..] == owner + (flag + rest)
  {
    assert [Word(lock)] + owner + flag + rest == [Word(lock)] + (owner + (flag + rest));
  }

  lemma MonitorRoundTrip(g: Graph, seen: seq<Ref>, m: Monitor, pool: Pool, rest: seq<Token>)
    requires WellFormed(g) && Within(g.Keys, m.owner) && Lockstep(g, seen, pool)
    ensures var w := WriteMonitor(g, seen, m); var r := ReadMonitor(w.tokens + rest, pool);
      && r.Read? && r.rest == rest && r.value == m.(owner := Image(w.seen, m.owner))
      && Lockstep(g, w.seen, r.pool) && pool <= r.pool && Rebuilt(g, |pool|, w.seen, r.pool)
  {
    var w := Write(g, seen, m.owner);
    var flag := [Word(if m.eliminated then 1 else 0)];
    RoundTrip(g, seen, m.owner, pool, flag + rest);
    MonitorSplits(m.basicLock, w.tokens, flag, rest);
    assert (flag + rest)[1..] == rest;
  }

  // ----- The streams -----

  lemma FieldsFrom(g: Graph, seen: seq<Ref>, vs: seq<ScopeValue>, i: nat)
    requires WellFormed(g) && AllWithin(g.Keys, vs) && i < |vs|
    ensures AllWithin(g.Keys, vs[i..]) && AllWithin(g.Keys, vs[i + 1..])
    ensures var w := Write(g, seen, vs[i]); var w' := WriteAll(g, w.seen, vs[i + 1..]);
      WriteAll(g, seen, vs[i..]) == Written(w.tokens + w'.tokens, w'.seen)
  {
    assert vs[i..][0] == vs[i] && vs[i..][1..] == vs[i + 1..];
  }

  class DebugInfoWriteStream {
    const g: Graph
    var tokens: seq<Token>
    /** The objects whose `_visited` flag is set, oldest first. */
    var visited: seq<Ref>

    constructor (g: Graph)
      ensures this.g == g && tokens == [] && visited == []
    {
      this.g := g;
      tokens, visited := [], [];
    }

    /** write_on of every class of scope value. */
    method WriteOn(v: ScopeValue)
      requires WellFormed(g) && Within(g.Keys, v)
      modifies this
      ensures tokens == old(tokens) + Write(g, old(visited), v).tokens
      ensures visited == Write(g, old(visited), v).seen
      decreases g.Keys - Elems(visited), 0
    {
      if !v.Object? {
        tokens := tokens + Plainly(v);
        return;
      }
      var o := g[v.ref];
      if v.ref in visited {
        tokens := tokens + [Word(OBJECT_ID_CODE), Word(o.id)];
        return;
      }
      assert v.ref in g.Keys - Elems(visited) && v.ref !in g.Keys - Elems(visited + [v.ref]);
      visited := visited + [v.ref];
      tokens := tokens + Header(o);
      WriteFields(o.fields);
      tokens := tokens + Trailer(o.kind);
      assert tokens == old(tokens) + (Header(o) + WriteAll(g, old(visited) + [v.ref], o.fields).tokens +
        Trailer(o.kind));
    }

    /** The loop over the field values of an object. */
    method WriteFields(vs: seq<ScopeValue>)
      requires WellFormed(g) && AllWithin(g.Keys, vs)
      modifies this
      ensures tokens == old(tokens) + WriteAll(g, old(visited), vs).tokens
      ensures visited == WriteAll(g, old(visited), vs).seen
      decreases g.Keys - Elems(visited), 1
    {
      ghost var all := WriteAll(g, visited, vs);
      var i := 0;
      while i < |vs|
        invariant 0 <= i <= |vs| && old(visited) <= visited
        invariant old(tokens) + all.tokens == tokens + WriteAll(g, visited, vs[i..]).tokens
        invariant all.seen == WriteAll(g, visited, vs[i..]).seen
      {
        FieldsFrom(g, visited, vs, i);
        ElemsMonotone(old(visited), visited);
        WriteOn(vs[i]);
        i := i + 1;
      }
    }
  }

  class DebugInfoReadStream {
    var rest: seq<Token>
    /** `_obj_pool` */
    var pool: Pool

    constructor (tokens: seq<Token>)
      ensures rest == tokens && pool == []
    {
      rest, pool := tokens, [];
    }

    /** get_cached_object: search the pool from its end. */
    method GetCachedObject(id: int) returns (k: Option<Ref>)
      ensures k == Cached(pool, id)
    {
      var i := |pool|;
      assert pool[..|pool|] == pool;
      while 0 < i
        invariant 0 <= i <= |pool| && Cached(pool[..i], id) == Cached(pool, id)
      {
        assert pool[..i][..i - 1] == pool[..i - 1];
        if pool[i - 1].id == id {
          return Some(i - 1);
        }
        i := i - 1;
      }
      return None;
    }

    /** read_from; None where the source has no way to go on. */
    method ReadValue() returns (v: Option<ScopeValue>)
      modifies this
      ensures match ReadFrom(old(rest), old(pool))
              case Malformed => v.None?
              case Read(value, rest', pool') => v == Some(value) && rest == rest' && pool == pool'
      decreases |rest|, 0
    {
      if |rest| < 1 || !rest[0].Word? {
        return None;
      }
      var code := rest[0].n;
      if code == MARKER_CODE {
        rest := rest[1..];
        return Some(Marker);
      }
      if |rest| < 2 || rest[1].Float? != (code == CONSTANT_DOUBLE_CODE) {
        return None;
      }
      var operand := rest[1];
      if code == OBJECT_CODE || code == AUTO_BOX_OBJECT_CODE || code == STACK_OBJECT_CODE {
        rest := rest[1..];
        v := ReadObjectValue(code);
        return;
      }
      if code == LOCATION_CODE {
        v := Some(Location(operand.n));
      } else if code == CONSTANT_INT_CODE {
        v := Some(ConstantInt(operand.n));
      } else if code == CONSTANT_OOP_CODE {
        v := Some(ConstantOop(operand.n));
      } else if code == CONSTANT_LONG_CODE {
        v := Some(ConstantLong(operand.n));
      } else if code == CONSTANT_DOUBLE_CODE {
        v := Some(ConstantDouble(operand.d));
      } else if code == OBJECT_ID_CODE {
        var k := GetCachedObject(operand.n);
        if k.None? {
          return None;
        }
        v := Some(Object(k.value));
      } else {
        return None;
      }
      rest := rest[2..];
    }

    /** read_object_value: cache the object since a field could reference it, then read it. */
    method ReadObjectValue(code: int) returns (v: Option<ScopeValue>)
      modifies this
      ensures match ReadObject(code, old(rest), old(pool))
              case Malformed => v.None?
              case Read(value, rest', pool') => v == Some(value) && rest == rest' && pool == pool'
      decreases |rest|, 2
    {
      if |rest| < 4 || !rest[0].Word? || rest[1] != Word(CONSTANT_OOP_CODE) || !rest[2].Word? || !rest[3].Word? {
        return None;
      }
      var k, length := |pool|, rest[3].n;
      pool := pool + [ObjectValue(KindFor(code), rest[0].n, rest[2].n, [])];
      rest := rest[4..];
      var ok := ReadFieldValues(length, k);
      if !ok {
        return None;
      }
      if code == STACK_OBJECT_CODE {
        if |rest| < 3 || !rest[0].Word? || rest[1] != Word(CONSTANT_INT_CODE) || !rest[2].Word? {
          return None;
        }
        pool := pool[k := pool[k].(kind := OnStack(rest[0].n, rest[2].n))];
        rest := rest[3..];
      }
      return Some(Object(k));
    }

    /** The loop that appends `length` values to the fields of pool object k. */
    method ReadFieldValues(length: int, k: Ref) returns (ok: bool)
      requires k < |pool|
      modifies this
      ensures match ReadFields(length, k, old(rest), old(pool))
              case Malformed => !ok
              case Read(_, rest', pool') => ok && rest == rest' && pool == pool'
      decreases |rest|, 1
    {
      var i := 0;
      while i < length
        invariant k < |pool| && |rest| <= |old(rest)|
        invariant ReadFields(length, k, old(rest), old(pool)) == ReadFields(length - i, k, rest, pool)
      {
        var v := ReadValue();
        if v.None? {
          return false;
        }
        pool := pool[k := pool[k].(fields := pool[k].fields + [v.value])];
        i := i + 1;
      }
      return true;
    }
  }
}
