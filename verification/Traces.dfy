/**
 * Traces of blocks and the table that holds them during block layout (opto/block.cpp).
 * A trace is the sequence of its blocks; the table holds a trace at its id and nothing
 * at the ids of traces that were merged away.
 */
module Traces {
  import opened Lists
  import opened Wrappers
  import opened ControlFlow
  import opened FixupFlow
  import UnionFind

  datatype Trace = Trace(id: nat, blocks: seq<BlockId>)
  type TraceTable = seq<Option<Trace>>

  /** Trace t is the class of k, each block once. */
  ghost predicate TraceOk(ids: set<BlockId>, reps: seq<nat>, k: nat, t: Trace) {
    && t.id == k && NoDup(t.blocks) && k in t.blocks
    && forall i :: 0 <= i < |t.blocks| ==> t.blocks[i] in ids && t.blocks[i] < |reps| && reps[t.blocks[i]] == k
  }

  /** Block b is in the trace at its representative. */
  ghost predicate AtHome(reps: seq<nat>, traces: TraceTable, b: BlockId) {
    b < |reps| && reps[b] < |traces| && traces[reps[b]].Some? && b in traces[reps[b]].value.blocks
  }

  /** The table agrees with the partition: traces[Find(b)] is the trace that contains b. */
  ghost predicate Agrees(ids: set<BlockId>, reps: seq<nat>, traces: TraceTable) {
    && (forall b :: b in ids ==> AtHome(reps, traces, b))
    && (forall k :: 0 <= k < |traces| && traces[k].Some? ==> TraceOk(ids, reps, k, traces[k].value))
  }

  /** No other trace contains b. */
  lemma UniqueTrace(ids: set<BlockId>, reps: seq<nat>, traces: TraceTable, b: BlockId, k: nat)
    requires Agrees(ids, reps, traces) && b in ids && k < |traces| && traces[k].Some? && b in traces[k].value.blocks
    ensures b < |reps| && k == reps[b] && traces[k].value.id == k
  {
  }

  lemma TraceHasId(ids: set<BlockId>, reps: seq<nat>, traces: TraceTable, k: nat)
    requires Agrees(ids, reps, traces) && k < |traces| && traces[k].Some?
    ensures k in ids && k < |reps| && reps[k] == k && traces[k].value.id == k
  {
    assert TraceOk(ids, reps, k, traces[k].value);
  }

  // ----- New traces and appended blocks -----

  lemma StartAgrees(ids: set<BlockId>, reps: seq<nat>, traces: TraceTable, n: BlockId)
    requires Agrees(ids, reps, traces) && n !in ids && n < |traces| && n < |reps| && reps[n] == n && traces[n].None?
    ensures Agrees(ids + {n}, reps, traces[n := Some(Trace(n, [n]))])
  {
    var traces' := traces[n := Some(Trace(n, [n]))];
    forall b | b in ids + {n} ensures AtHome(reps, traces', b) {
      assert b != n ==> AtHome(reps, traces, b);
    }
  }

  lemma AppendAgrees(ids: set<BlockId>, reps: seq<nat>, traces: TraceTable, k: nat, n: BlockId)
    requires Agrees(ids, reps, traces) && n !in ids && n < |traces| && n < |reps| && reps[n] == n && traces[n].None?
    requires k < |traces| && traces[k].Some?
    ensures Agrees(ids + {n}, UnionFind.Merged(reps, k, n), traces[k := Some(Trace(k, traces[k].value.blocks + [n]))])
  {
    var reps', t := UnionFind.Merged(reps, k, n), Trace(k, traces[k].value.blocks + [n]);
    var traces' := traces[k := Some(t)];
    TraceHasId(ids, reps, traces, k);
    assert t.blocks[|t.blocks| - 1] == n;
    forall b | b in ids + {n} ensures AtHome(reps', traces', b) {
      if b != n {
        assert AtHome(reps, traces, b);
        TraceHasId(ids, reps, traces, reps[b]);
      }
    }
    forall j | 0 <= j < |traces'| && traces'[j].Some? ensures TraceOk(ids + {n}, reps', j, traces'[j].value) {
      assert TraceOk(ids, reps, j, traces[j].value);
    }
  }

  // ----- Joined and rotated traces -----

  function Embed(s: seq<BlockId>, p: nat, t: seq<BlockId>): seq<BlockId>
    requires p <= |s|
  {
    s[..p] + t + s[p..]
  }

  /** Where the blocks of an embedding come from. */
  lemma EmbedAt(s: seq<BlockId>, p: nat, t: seq<BlockId>, k: nat)
    requires p <= |s| && k < |s| + |t|
    ensures Embed(s, p, t)[k] == if k < p then s[k] else if k < p + |t| then t[k - p] else s[k - |t|]
    ensures if p <= k < p + |t| then Embed(s, p, t)[k] in t else Embed(s, p, t)[k] in s
  {
  }

  lemma EmbedUnique(s: seq<BlockId>, p: nat, t: seq<BlockId>)
    requires p <= |s| && NoDup(s) && NoDup(t) && forall x :: x in s ==> x !in t
    ensures NoDup(Embed(s, p, t))
  {
    var m := Embed(s, p, t);
    forall j, k | 0 <= j < k < |m| ensures m[j] != m[k] {
      EmbedAt(s, p, t, j);
      EmbedAt(s, p, t, k);
    }
  }

  lemma EmbedHolds(s: seq<BlockId>, p: nat, t: seq<BlockId>)
    requires p <= |s|
    ensures forall x :: x in Embed(s, p, t) <==> x in s || x in t
    ensures NoDup(s) && NoDup(t) && (forall x :: x in s ==> x !in t) ==> NoDup(Embed(s, p, t))
    ensures p > 0 ==> Embed(s, p, t)[0] == s[0]
  {
    assert s == s[..p] + s[p..];
    if NoDup(s) && NoDup(t) && forall x :: x in s ==> x !in t {
      EmbedUnique(s, p, t);
    }
  }

  function Lo(a: nat, b: nat): nat {
    if a < b then a else b
  }

  function Hi(a: nat, b: nat): nat {
    if a < b then b else a
  }

  /** union_traces on the table: the updated trace a moves to the lower id, the higher id is cleared. */
  function Unioned(traces: TraceTable, a: nat, b: nat): TraceTable
    requires a < |traces| && b < |traces| && traces[a].Some?
  {
    traces[Lo(a, b) := Some(Trace(Lo(a, b), traces[a].value.blocks))][Hi(a, b) := None]
  }

  /** The trace at b is put into the trace at a before position p. */
  function Joined(traces: TraceTable, a: nat, b: nat, p: nat): TraceTable
    requires a < |traces| && b < |traces| && traces[a].Some? && traces[b].Some? && p <= |traces[a].value.blocks|
  {
    Unioned(traces[a := Some(Trace(a, Embed(traces[a].value.blocks, p, traces[b].value.blocks)))], a, b)
  }

  lemma JoinedTrace(ids: set<BlockId>, reps: seq<nat>, s: Trace, t: Trace, a: nat, b: nat, p: nat)
    requires a != b && p <= |s.blocks| && TraceOk(ids, reps, a, s) && TraceOk(ids, reps, b, t)
    ensures TraceOk(ids, UnionFind.Merged(reps, Lo(a, b), Hi(a, b)), Lo(a, b),
      Trace(Lo(a, b), Embed(s.blocks, p, t.blocks)))
  {
    EmbedHolds(s.blocks, p, t.blocks);
    var m := Embed(s.blocks, p, t.blocks);
    forall i | 0 <= i < |m|
      ensures m[i] in ids && m[i] < |reps| && UnionFind.Merged(reps, Lo(a, b), Hi(a, b))[m[i]] == Lo(a, b)
    {
      assert m[i] in s.blocks || m[i] in t.blocks;
    }
  }

  /** Joining two traces and merging their classes keeps the table in agreement. */
  lemma JoinAgrees(ids: set<BlockId>, reps: seq<nat>, traces: TraceTable, a: nat, b: nat, p: nat)
    requires Agrees(ids, reps, traces) && a != b
    requires a < |traces| && b < |traces| && traces[a].Some? && traces[b].Some? && p <= |traces[a].value.blocks|
    ensures Agrees(ids, UnionFind.Merged(reps, Lo(a, b), Hi(a, b)), Joined(traces, a, b, p))
  {
    var reps', traces' := UnionFind.Merged(reps, Lo(a, b), Hi(a, b)), Joined(traces, a, b, p);
    JoinedTrace(ids, reps, traces[a].value, traces[b].value, a, b, p);
    EmbedHolds(traces[a].value.blocks, p, traces[b].value.blocks);
    forall x | x in ids ensures AtHome(reps', traces', x) {
      assert AtHome(reps, traces, x);
    }
    forall k | 0 <= k < |traces'| && traces'[k].Some? ensures TraceOk(ids, reps', k, traces'[k].value) {
      if k != Lo(a, b) {
        assert TraceOk(ids, reps, k, traces[k].value);
      }
    }
  }

  function Rotated(s: seq<BlockId>, p: nat): seq<BlockId>
    requires p <= |s|
  {
    s[p..] + s[..p]
  }

  lemma RotateAgrees(ids: set<BlockId>, reps: seq<nat>, traces: TraceTable, a: nat, p: nat)
    requires Agrees(ids, reps, traces) && a < |traces| && traces[a].Some? && p <= |traces[a].value.blocks|
    ensures Agrees(ids, reps, traces[a := Some(Trace(a, Rotated(traces[a].value.blocks, p)))])
  {
    var s := traces[a].value.blocks;
    var t := Trace(a, Rotated(s, p));
    var traces' := traces[a := Some(t)];
    assert TraceOk(ids, reps, a, traces[a].value);
    assert forall x :: x in t.blocks <==> x in s by {
      assert s == s[..p] + s[p..];
    }
    forall i | 0 <= i < |t.blocks| ensures t.blocks[i] in ids && t.blocks[i] < |reps| && reps[t.blocks[i]] == a {
      assert t.blocks[i] in s;
    }
    assert TraceOk(ids, reps, a, t);
    forall x | x in ids ensures AtHome(reps, traces', x) {
      assert AtHome(reps, traces, x);
    }
  }
}
