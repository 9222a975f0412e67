/**
 * The oops of a compiled frame (compiler/oopMap.cpp, OopMapSet::all_do): slots that hold
 * heap oops are handed to a closure, slots that hold objects allocated in the frame itself
 * are followed into those objects.  Memory is a map from slots to their contents.
 */
module StackWalk {
  import opened Lists

  type Addr = nat
  type Memory = map<Addr, Addr>

  const NULL: Addr := 0

  /** An object in the frame; fields are the addresses of its oop fields. */
  datatype StackObject = StackObject(typeArray: bool, fields: seq<Addr>)
  type Objects = map<Addr, StackObject>

  datatype Kind = OopValue | NarrowOopValue | OtherValue
  /** An oop map entry and the location of its register. */
  datatype Entry = Entry(kind: Kind, loc: Addr)

  datatype Frame = Frame(base: Addr, top: Addr, narrowBase: Addr, objects: Objects)

  ghost predicate InFrame(fr: Frame, v: Addr) {
    fr.base <= v < fr.top
  }

  // ----- The reachable stack objects -----

  /** The slot is there, and if it points into the frame it points at an object. */
  ghost predicate SlotOk(fr: Frame, mem: Memory, p: Addr) {
    p in mem && (InFrame(fr, mem[p]) ==> mem[p] in fr.objects)
  }

  ghost predicate ObjectOk(fr: Frame, mem: Memory, o: Addr)
    requires o in fr.objects
  {
    NoDup(fr.objects[o].fields) && forall i :: 0 <= i < |fr.objects[o].fields| ==>
      SlotOk(fr, mem, fr.objects[o].fields[i])
  }

  /** No field belongs to two objects. */
  ghost predicate Apart(fr: Frame, o: Addr, o2: Addr) {
    o in fr.objects && o2 in fr.objects && o != o2 ==> forall f :: f in fr.objects[o].fields ==>
      f !in fr.objects[o2].fields
  }

  ghost predicate FrameOk(fr: Frame, mem: Memory) {
    && (forall o :: o in fr.objects ==> ObjectOk(fr, mem, o))
    && (forall o: Addr, o2: Addr :: Apart(fr, o, o2))
  }

  /** The object to walk into that slot p points at, if any: type arrays have no oops. */
  ghost predicate Leads(fr: Frame, mem: Memory, p: Addr, o: Addr) {
    p in mem && mem[p] == o && InFrame(fr, o) && o in fr.objects && !fr.objects[o].typeArray
  }

  ghost predicate ObjectClosed(fr: Frame, mem: Memory, s: set<Addr>, o: Addr)
    requires o in fr.objects
  {
    forall i, t :: 0 <= i < |fr.objects[o].fields| && Leads(fr, mem, fr.objects[o].fields[i], t) ==> t in s
  }

  /** The objects of s lead to no objects outside s. */
  ghost predicate Closed(fr: Frame, mem: Memory, s: set<Addr>) {
    forall o :: o in s ==> o in fr.objects && ObjectClosed(fr, mem, s, o)
  }

  /** Slots of the objects in s that do not point into the frame. */
  ghost function OutSlots(fr: Frame, mem: Memory, s: set<Addr>): set<Addr>
    requires s <= fr.objects.Keys
  {
    set o, i | o in s && 0 <= i < |fr.objects[o].fields| && fr.objects[o].fields[i] in mem &&
      !InFrame(fr, mem[fr.objects[o].fields[i]])
      :: fr.objects[o].fields[i]
  }

  lemma OutSlotsAdd(fr: Frame, mem: Memory, a: set<Addr>, b: set<Addr>)
    requires a <= fr.objects.Keys && b <= fr.objects.Keys
    ensures OutSlots(fr, mem, a + b) == OutSlots(fr, mem, a) + OutSlots(fr, mem, b)
  {
  }

  // ----- What a walk does -----

  /** How far a walk has come: the objects it has entered and the slots given to the closure, in order. */
  datatype Progress = Progress(entered: set<Addr>, log: seq<Addr>)

  ghost predicate Unlogged(fr: Frame, log: seq<Addr>, o: Addr) {
    o in fr.objects ==> forall f :: f in fr.objects[o].fields ==> f !in log
  }

  /** Fields of objects not entered have not been given to the closure; no slot was given twice. */
  ghost predicate Consistent(fr: Frame, w: Progress) {
    && w.entered <= fr.objects.Keys
    && NoDup(w.log)
    && forall o: Addr :: o !in w.entered ==> Unlogged(fr, w.log, o)
  }

  /** Every set closed under reachability that holds start holds what was entered between w and w'. */
  ghost predicate OnlyFrom(fr: Frame, mem: Memory, start: Addr, w: Progress, w': Progress) {
    forall s: set<Addr> :: start in s && Closed(fr, mem, s) ==> w'.entered <= w.entered + s
  }

  /** From w to w', the objects reachable from start were entered, and their out-of-frame fields logged. */
  ghost predicate Walked(fr: Frame, mem: Memory, start: Addr, w: Progress, w': Progress) {
    && Consistent(fr, w) && Consistent(fr, w')
    && start in w'.entered && w.entered <= w'.entered
    && Elems(w'.log) == Elems(w.log) + OutSlots(fr, mem, w'.entered - w.entered)
    && (forall o :: o in w'.entered - w.entered ==> ObjectClosed(fr, mem, w'.entered, o))
    && OnlyFrom(fr, mem, start, w, w')
  }

  /** The out-of-frame slots among the first i fields of o. */
  ghost function OutFields(fr: Frame, mem: Memory, o: Addr, i: nat): set<Addr>
    requires o in fr.objects && i <= |fr.objects[o].fields|
  {
    set j | 0 <= j < i && fr.objects[o].fields[j] in mem &&
      !InFrame(fr, mem[fr.objects[o].fields[j]]) :: fr.objects[o].fields[j]
  }

  /** Object o, new in the walk, has been entered and its first i fields dealt with. */
  ghost predicate Partly(fr: Frame, mem: Memory, o: Addr, i: nat, w: Progress, w': Progress) {
    && o in fr.objects && i <= |fr.objects[o].fields|
    && Consistent(fr, w) && Consistent(fr, w') && o !in w.entered
    && w.entered + {o} <= w'.entered
    && Elems(w'.log) == Elems(w.log) + OutSlots(fr, mem, w'.entered - w.entered - {o}) + OutFields(fr, mem, o, i)
    && (forall x :: x in w'.entered - w.entered - {o} ==> ObjectClosed(fr, mem, w'.entered, x))
    && (forall j, t :: 0 <= j < i && Leads(fr, mem, fr.objects[o].fields[j], t) ==> t in w'.entered)
    && (forall j :: i <= j < |fr.objects[o].fields| ==> fr.objects[o].fields[j] !in w'.log)
    && OnlyFrom(fr, mem, o, w, w')
  }

  lemma PartlyStart(fr: Frame, mem: Memory, o: Addr, w: Progress)
    requires FrameOk(fr, mem) && o in fr.objects && Consistent(fr, w) && o !in w.entered
    ensures Partly(fr, mem, o, 0, w, w.(entered := w.entered + {o}))
  {
    assert Unlogged(fr, w.log, o);
    assert w.entered + {o} - w.entered - {o} == {};
  }

  lemma PartlyDone(fr: Frame, mem: Memory, o: Addr, w: Progress, w': Progress)
    requires o in fr.objects && Partly(fr, mem, o, |fr.objects[o].fields|, w, w')
    ensures Walked(fr, mem, o, w, w')
  {
    var new_ := w'.entered - w.entered - {o};
    assert w'.entered - w.entered == new_ + {o};
    OutSlotsAdd(fr, mem, new_, {o});
    assert OutSlots(fr, mem, {o}) == OutFields(fr, mem, o, |fr.objects[o].fields|);
  }

  /** An out-of-frame field is given to the closure. */
  lemma PartlyLogged(fr: Frame, mem: Memory, o: Addr, i: nat, w: Progress, w': Progress)
    requires FrameOk(fr, mem) && o in fr.objects && i < |fr.objects[o].fields| && Partly(fr, mem, o, i, w, w')
    requires var f := fr.objects[o].fields[i]; f in mem && !InFrame(fr, mem[f])
    ensures Partly(fr, mem, o, i + 1, w, w'.(log := w'.log + [fr.objects[o].fields[i]]))
  {
    var f := fr.objects[o].fields[i];
    var w2 := w'.(log := w'.log + [f]);
    assert ObjectOk(fr, mem, o);
    forall x: Addr | x !in w2.entered ensures Unlogged(fr, w2.log, x) {
      assert Unlogged(fr, w'.log, x) && Apart(fr, o, x);
    }
    assert OutFields(fr, mem, o, i + 1) == OutFields(fr, mem, o, i) + {f};
    assert Elems(w2.log) == Elems(w'.log) + {f};
  }

  lemma ClosedMore(fr: Frame, mem: Memory, s: set<Addr>, s2: set<Addr>, o: Addr)
    requires o in fr.objects && ObjectClosed(fr, mem, s, o) && s <= s2
    ensures ObjectClosed(fr, mem, s2, o)
  {
  }

  lemma OthersUnlogged(fr: Frame, mem: Memory, o: Addr, f: Addr, s: set<Addr>)
    requires FrameOk(fr, mem) && o in fr.objects && f in fr.objects[o].fields && s <= fr.objects.Keys && o !in s
    ensures f !in OutSlots(fr, mem, s)
  {
    forall x | x in s ensures f !in fr.objects[x].fields {
      assert Apart(fr, o, x);
    }
  }

  lemma OnlyFromField(fr: Frame, mem: Memory, o: Addr, i: nat, w: Progress, w': Progress, t: Addr, w2: Progress)
    requires o in fr.objects && i < |fr.objects[o].fields| && Leads(fr, mem, fr.objects[o].fields[i], t)
    requires OnlyFrom(fr, mem, o, w, w') && OnlyFrom(fr, mem, t, w', w2)
    ensures OnlyFrom(fr, mem, o, w, w2)
  {
    forall s: set<Addr> | o in s && Closed(fr, mem, s) ensures w2.entered <= w.entered + s {
      assert ObjectClosed(fr, mem, s, o);
      assert t in s;
    }
  }

  lemma WalkedLog(fr: Frame, mem: Memory, o: Addr, i: nat, w: Progress, w': Progress, t: Addr, w2: Progress)
    requires o in fr.objects && i < |fr.objects[o].fields| && Leads(fr, mem, fr.objects[o].fields[i], t)
    requires Partly(fr, mem, o, i, w, w') && Walked(fr, mem, t, w', w2)
    ensures Elems(w2.log) == Elems(w.log) + OutSlots(fr, mem, w2.entered - w.entered - {o}) +
      OutFields(fr, mem, o, i + 1)
  {
    var a, b := w'.entered - w.entered - {o}, w2.entered - w'.entered;
    assert a + b == w2.entered - w.entered - {o};
    OutSlotsAdd(fr, mem, a, b);
    assert OutFields(fr, mem, o, i + 1) == OutFields(fr, mem, o, i);
  }

  /** A field that points at a stack object is followed. */
  lemma PartlyWalked(fr: Frame, mem: Memory, o: Addr, i: nat, w: Progress, w': Progress, t: Addr, w2: Progress)
    requires FrameOk(fr, mem) && o in fr.objects && i < |fr.objects[o].fields|
    requires Leads(fr, mem, fr.objects[o].fields[i], t)
    requires Partly(fr, mem, o, i, w, w') && Walked(fr, mem, t, w', w2)
    ensures Partly(fr, mem, o, i + 1, w, w2)
  {
    WalkedLog(fr, mem, o, i, w, w', t, w2);
    OnlyFromField(fr, mem, o, i, w, w', t, w2);
    forall x | x in w2.entered - w.entered - {o} ensures ObjectClosed(fr, mem, w2.entered, x) {
      if x in w'.entered {
        ClosedMore(fr, mem, w'.entered, w2.entered, x);
      }
    }
    forall j | i + 1 <= j < |fr.objects[o].fields| ensures fr.objects[o].fields[j] !in w2.log {
      OthersUnlogged(fr, mem, o, fr.objects[o].fields[j], w2.entered - w'.entered);
      assert fr.objects[o].fields[j] !in Elems(w'.log);
      assert fr.objects[o].fields[j] !in Elems(w2.log);
    }
  }

  /** A field that points at a type array needs nothing. */
  lemma PartlySkipped(fr: Frame, mem: Memory, o: Addr, i: nat, w: Progress, w': Progress)
    requires o in fr.objects && i < |fr.objects[o].fields| && Partly(fr, mem, o, i, w, w')
    requires var f := fr.objects[o].fields[i];
      f in mem && InFrame(fr, mem[f]) && mem[f] in fr.objects && fr.objects[mem[f]].typeArray
    ensures Partly(fr, mem, o, i + 1, w, w')
  {
    assert OutFields(fr, mem, o, i + 1) == OutFields(fr, mem, o, i);
  }

  // ----- The walker -----

  ghost predicate Relocated(mem0: Memory, mem: Memory, log: seq<Addr>, relocate: (Addr, Addr) -> Addr) {
    mem.Keys == mem0.Keys && forall a :: a in mem0 ==> mem[a] == if a in log then relocate(a, mem0[a]) else mem0[a]
  }

  // ----- The roots -----

  /** The entry's location holds an oop that is looked at. */
  ghost predicate IsLive(fr: Frame, mem: Memory, e: Entry) {
    e.kind.OopValue? && e.loc in mem && mem[e.loc] != NULL && mem[e.loc] != fr.narrowBase
  }

  /** The closure is due on the entry's location. */
  ghost predicate IsDue(fr: Frame, mem: Memory, e: Entry) {
    e.kind.NarrowOopValue? || (IsLive(fr, mem, e) && !InFrame(fr, mem[e.loc]))
  }

  ghost predicate EntryLeads(fr: Frame, mem: Memory, e: Entry, o: Addr) {
    IsLive(fr, mem, e) && Leads(fr, mem, e.loc, o)
  }

  ghost predicate IsOop(e: Entry) {
    e.kind.OopValue? || e.kind.NarrowOopValue?
  }

  ghost predicate EntryOk(fr: Frame, mem: Memory, e: Entry) {
    IsOop(e) ==> SlotOk(fr, mem, e.loc) && forall o :: o in fr.objects ==> e.loc !in fr.objects[o].fields
  }

  /** Locations of oops are distinct and are not fields of stack objects. */
  ghost predicate EntriesOk(fr: Frame, mem: Memory, entries: seq<Entry>) {
    && (forall i :: 0 <= i < |entries| ==> EntryOk(fr, mem, entries[i]))
    && (forall i, j :: 0 <= i < j < |entries| && IsOop(entries[i]) && IsOop(entries[j]) ==>
      entries[i].loc != entries[j].loc)
  }

  ghost function DueSlots(fr: Frame, mem: Memory, entries: seq<Entry>): set<Addr> {
    set i | 0 <= i < |entries| && IsDue(fr, mem, entries[i]) :: entries[i].loc
  }

  ghost predicate HoldsRoots(fr: Frame, mem: Memory, entries: seq<Entry>, s: set<Addr>) {
    forall i, o :: 0 <= i < |entries| && EntryLeads(fr, mem, entries[i], o) ==> o in s
  }

  /** s is the set of stack objects reachable from the entries: the least closed set with their targets. */
  ghost predicate Reached(fr: Frame, mem: Memory, entries: seq<Entry>, s: set<Addr>) {
    && HoldsRoots(fr, mem, entries, s) && Closed(fr, mem, s)
    && forall s2: set<Addr> :: HoldsRoots(fr, mem, entries, s2) && Closed(fr, mem, s2) ==> s <= s2
  }

  /** The entries have been dealt with: exactly the due slots have been logged, each once. */
  ghost predicate Rooted(fr: Frame, mem: Memory, entries: seq<Entry>, w: Progress) {
    && Consistent(fr, w)
    && Reached(fr, mem, entries, w.entered)
    && Elems(w.log) == DueSlots(fr, mem, entries) + OutSlots(fr, mem, w.entered)
  }

  lemma RootedStart(fr: Frame, mem: Memory)
    ensures Rooted(fr, mem, [], Progress({}, []))
  {
  }

  lemma DueMore(fr: Frame, mem: Memory, entries: seq<Entry>, e: Entry)
    ensures DueSlots(fr, mem, entries + [e]) == DueSlots(fr, mem, entries) + (if IsDue(fr, mem, e) then {e.loc} else {})
  {
    var more := entries + [e];
    forall a | a in DueSlots(fr, mem, entries) ensures a in DueSlots(fr, mem, more) {
      var i :| 0 <= i < |entries| && IsDue(fr, mem, entries[i]) && entries[i].loc == a;
      assert more[i] == entries[i];
    }
    assert more[|entries|] == e;
  }

  lemma HoldsMore(fr: Frame, mem: Memory, entries: seq<Entry>, e: Entry, s: set<Addr>)
    ensures HoldsRoots(fr, mem, entries + [e], s) <==>
      HoldsRoots(fr, mem, entries, s) && forall o :: EntryLeads(fr, mem, e, o) ==> o in s
  {
    var more := entries + [e];
    assert more[|entries|] == e;
    assert forall i :: 0 <= i < |entries| ==> more[i] == entries[i];
  }

  /** An entry that leads nowhere: ignored, or given to the closure. */
  lemma RootedPlain(fr: Frame, mem: Memory, entries: seq<Entry>, e: Entry, w: Progress, w': Progress)
    requires Rooted(fr, mem, entries, w) && EntryOk(fr, mem, e) && forall o :: !EntryLeads(fr, mem, e, o)
    requires if IsDue(fr, mem, e) then w' == w.(log := w.log + [e.loc]) && e.loc !in w.log else w' == w
    ensures Rooted(fr, mem, entries + [e], w')
  {
    DueMore(fr, mem, entries, e);
    forall s: set<Addr> ensures HoldsRoots(fr, mem, entries + [e], s) <==> HoldsRoots(fr, mem, entries, s) {
      HoldsMore(fr, mem, entries, e, s);
    }
    forall o: Addr | o !in w'.entered ensures Unlogged(fr, w'.log, o) {
      assert Unlogged(fr, w.log, o);
    }
    assert Elems(w'.log) == Elems(w.log) + (if IsDue(fr, mem, e) then {e.loc} else {});
  }

  /** An entry that leads to a stack object, which is walked. */
  lemma RootedWalked(fr: Frame, mem: Memory, entries: seq<Entry>, e: Entry, o: Addr, w: Progress, w': Progress)
    requires Rooted(fr, mem, entries, w) && EntryLeads(fr, mem, e, o) && Walked(fr, mem, o, w, w')
    ensures Rooted(fr, mem, entries + [e], w')
  {
    DueMore(fr, mem, entries, e);
    OutSlotsAdd(fr, mem, w.entered, w'.entered - w.entered);
    assert w.entered + (w'.entered - w.entered) == w'.entered;
    forall x | x in w'.entered ensures ObjectClosed(fr, mem, w'.entered, x) {
      if x in w.entered {
        ClosedMore(fr, mem, w.entered, w'.entered, x);
      }
    }
    HoldsMore(fr, mem, entries, e, w'.entered);
    forall s: set<Addr> | HoldsRoots(fr, mem, entries + [e], s) && Closed(fr, mem, s) ensures w'.entered <= s {
      HoldsMore(fr, mem, entries, e, s);
      assert o in s;
    }
  }

  /** The location of an entry still to come has not been given to the closure. */
  lemma EntryUnlogged(fr: Frame, mem: Memory, entries: seq<Entry>, i: nat, w: Progress)
    requires EntriesOk(fr, mem, entries) && i < |entries| && Rooted(fr, mem, entries[..i], w) && IsOop(entries[i])
    ensures entries[i].loc !in w.log
  {
    assert EntryOk(fr, mem, entries[i]);
    assert entries[i].loc !in DueSlots(fr, mem, entries[..i]);
    assert entries[i].loc !in OutSlots(fr, mem, w.entered);
    assert entries[i].loc !in Elems(w.log);
  }

  /** A slot with a narrow oop is given to the closure, and one with an oop if that is a heap reference. */
  ghost predicate RightlyGiven(fr: Frame, mem: Memory, e: Entry, log: seq<Addr>) {
    match e.kind
    case NarrowOopValue => e.loc in log
    case OopValue =>
      && e.loc in mem
      && (e.loc in log <==> mem[e.loc] != NULL && mem[e.loc] != fr.narrowBase && !(fr.base <= mem[e.loc] < fr.top))
    case OtherValue => true
  }

  lemma DueIsGiven(fr: Frame, mem: Memory, entries: seq<Entry>, w: Progress, i: nat)
    requires EntriesOk(fr, mem, entries) && Rooted(fr, mem, entries, w) && i < |entries|
    ensures RightlyGiven(fr, mem, entries[i], w.log)
  {
    assert EntryOk(fr, mem, entries[i]);
    var loc := entries[i].loc;
    assert loc in w.log <==> loc in Elems(w.log);
    if IsOop(entries[i]) {
      assert loc !in OutSlots(fr, mem, w.entered);
      if loc in DueSlots(fr, mem, entries) {
        var j :| 0 <= j < |entries| && IsDue(fr, mem, entries[j]) && entries[j].loc == loc;
        assert j == i;
      }
    }
  }

  class FrameWalker {
    const fr: Frame
    /** What the closure leaves in a slot it is given: anything. */
    const relocate: (Addr, Addr) -> Addr
    var mem: Memory
    var stackOops: seq<Addr>
    /** The slots given to the closure so far. */
    var log: seq<Addr>

    ghost function Now(): Progress
      reads this
    {
      Progress(Elems(stackOops), log)
    }

    ghost predicate Valid(mem0: Memory)
      reads this
    {
      FrameOk(fr, mem0) && Consistent(fr, Now()) && Relocated(mem0, mem, log, relocate)
    }

    constructor (fr: Frame, mem: Memory, relocate: (Addr, Addr) -> Addr)
      requires FrameOk(fr, mem)
      ensures this.fr == fr && this.relocate == relocate && this.mem == mem
      ensures Valid(mem) && stackOops == [] && log == []
    {
      this.fr, this.mem, this.relocate, stackOops, log := fr, mem, relocate, [], [];
    }

    /** _closure->do_oop(p) */
    method DoOop(p: Addr)
      requires p in mem
      modifies this`mem, this`log
      ensures mem == old(mem)[p := relocate(p, old(mem)[p])] && log == old(log) + [p]
    {
      mem := mem[p := relocate(p, mem[p])];
      log := log + [p];
    }

    /** stack_oop_do: an object that has oops and was not seen yet is walked. */
    method StackOopDo(o: Addr, ghost mem0: Memory)
      requires Valid(mem0) && o in fr.objects
      modifies this
      ensures Valid(mem0)
      ensures if fr.objects[o].typeArray then Now() == old(Now()) else Walked(fr, mem0, o, old(Now()), Now())
      decreases fr.objects.Keys - Elems(stackOops), 0
    {
      if fr.objects[o].typeArray || o in stackOops {
        return;
      }
      ghost var w := Now();
      PartlyStart(fr, mem0, o, w);
      stackOops := stackOops + [o];
      assert Now() == w.(entered := w.entered + {o});
      for i := 0 to |fr.objects[o].fields|
        invariant Valid(mem0) && Partly(fr, mem0, o, i, w, Now())
      {
        DoField(o, i, w, mem0);
      }
      PartlyDone(fr, mem0, o, w, Now());
    }

    /** OopClosureWalker::do_oop on field i of object o. */
    method DoField(o: Addr, i: nat, ghost w: Progress, ghost mem0: Memory)
      requires Valid(mem0) && o in fr.objects && i < |fr.objects[o].fields| && Partly(fr, mem0, o, i, w, Now())
      modifies this
      ensures Valid(mem0) && Partly(fr, mem0, o, i + 1, w, Now())
      decreases fr.objects.Keys - Elems(stackOops), 1
    {
      var f := fr.objects[o].fields[i];
      assert SlotOk(fr, mem0, f) by {
        assert ObjectOk(fr, mem0, o);
      }
      assert mem[f] == mem0[f];
      ghost var w' := Now();
      var t := mem[f];
      if fr.base <= t < fr.top {
        StackOopDo(t, mem0);
        if fr.objects[t].typeArray {
          PartlySkipped(fr, mem0, o, i, w, w');
        } else {
          PartlyWalked(fr, mem0, o, i, w, w', t, Now());
        }
      } else {
        PartlyLogged(fr, mem0, o, i, w, w');
        DoOop(f);
      }
    }

    /** One entry of the frame's map. */
    method DoEntry(entries: seq<Entry>, i: nat, ghost mem0: Memory)
      requires Valid(mem0) && EntriesOk(fr, mem0, entries) && i < |entries| && Rooted(fr, mem0, entries[..i], Now())
      modifies this
      ensures Valid(mem0) && Rooted(fr, mem0, entries[..i + 1], Now())
    {
      var e := entries[i];
      ghost var w := Now();
      assert entries[..i + 1] == entries[..i] + [e];
      assert EntryOk(fr, mem0, e);
      if IsOop(e) {
        EntryUnlogged(fr, mem0, entries, i, w);
        assert mem[e.loc] == mem0[e.loc];
      }
      match e.kind
      case OopValue =>
        var val := mem[e.loc];
        if val == NULL || val == fr.narrowBase {
          RootedPlain(fr, mem0, entries[..i], e, w, Now());
        } else if fr.base <= val < fr.top {
          StackOopDo(val, mem0);
          if fr.objects[val].typeArray {
            RootedPlain(fr, mem0, entries[..i], e, w, Now());
          } else {
            RootedWalked(fr, mem0, entries[..i], e, val, w, Now());
          }
        } else {
          DoOop(e.loc);
          RootedPlain(fr, mem0, entries[..i], e, w, Now());
        }
      case NarrowOopValue =>
        DoOop(e.loc);
        RootedPlain(fr, mem0, entries[..i], e, w, Now());
      case OtherValue =>
        RootedPlain(fr, mem0, entries[..i], e, w, Now());
    }

    /**
     * all_do: the closure is given, each exactly once, the due locations of the map and the fields of all
     * stack objects reachable from them that do not point into the frame; no other slot changes.
     */
    method AllDo(entries: seq<Entry>)
      requires Valid(mem) && EntriesOk(fr, mem, entries) && stackOops == [] && log == []
      modifies this
      ensures Reached(fr, old(mem), entries, Elems(stackOops)) && Elems(stackOops) <= fr.objects.Keys
      ensures NoDup(log) && Elems(log) == DueSlots(fr, old(mem), entries) + OutSlots(fr, old(mem), Elems(stackOops))
      ensures Relocated(old(mem), mem, log, relocate)
      ensures forall i :: 0 <= i < |entries| ==> RightlyGiven(fr, old(mem), entries[i], log)
    {
      ghost var mem0 := mem;
      RootedStart(fr, mem0);
      assert Now() == Progress({}, []);
      assert entries[..0] == [];
      for i := 0 to |entries|
        invariant Valid(mem0) && Rooted(fr, mem0, entries[..i], Now())
      {
        DoEntry(entries, i, mem0);
      }
      assert entries[..|entries|] == entries;
      forall i | 0 <= i < |entries| ensures RightlyGiven(fr, mem0, entries[i], log) {
        DueIsGiven(fr, mem0, entries, Now(), i);
      }
    }
  }
}
