/**
 * Tarjan's union-find as used by the block layout (opto/block.cpp).  Links only ever
 * point to smaller or equal indices, so every representative is the least of its class.
 */
module UnionFind {

  /** links[i] <= i for every i. */
  ghost predicate Falling(links: seq<nat>) {
    forall i :: 0 <= i < |links| ==> links[i] <= i
  }

  /** The representative of i. */
  ghost function Root(links: seq<nat>, i: nat): (r: nat)
    requires Falling(links) && i < |links|
    ensures r <= i && links[r] == r
    decreases i
  {
    if links[i] == i then i else Root(links, links[i])
  }

  ghost predicate SameClass(links: seq<nat>, i: nat, j: nat)
    requires Falling(links) && i < |links| && j < |links|
  {
    Root(links, i) == Root(links, j)
  }

  /** The representatives of all indices: the partition. */
  ghost function Reps(links: seq<nat>): (s: seq<nat>)
    requires Falling(links)
    ensures |s| == |links|
  {
    seq(|links|, i requires 0 <= i < |links| => Root(links, i))
  }

  /** A representative is a member of its class and no member is smaller. */
  lemma {:induction false} RootIsLeast(links: seq<nat>, i: nat, j: nat)
    requires Falling(links) && i < |links| && j < |links| && SameClass(links, i, j)
    ensures SameClass(links, Root(links, i), i) && Root(links, i) <= j
  {
    var r := Root(links, i);
    assert Root(links, r) == r;
    assert Root(links, j) == r;
  }

  /** Pointing i at its representative changes no representative. */
  lemma {:induction false} CompressKeeps(links: seq<nat>, i: nat, j: nat)
    requires Falling(links) && i < |links| && j < |links|
    ensures Falling(links[i := Root(links, i)])
    ensures Root(links[i := Root(links, i)], j) == Root(links, j)
    decreases j
  {
    var r := Root(links, i);
    var links' := links[i := r];
    if j == i {
      assert links'[r] == r;
      assert Root(links', r) == r;
    } else if links[j] != j {
      CompressKeeps(links, i, links[j]);
    }
  }

  /** Pointing the representative dst at the smaller representative src merges their two classes and no others. */
  lemma {:induction false} LinkMerges(links: seq<nat>, src: nat, dst: nat, j: nat)
    requires Falling(links) && src < dst < |links| && j < |links| && links[src] == src && links[dst] == dst
    ensures Falling(links[dst := src])
    ensures Root(links[dst := src], j) == if Root(links, j) == dst then src else Root(links, j)
    decreases j
  {
    var links' := links[dst := src];
    assert Root(links', src) == src;
    if j != dst && links[j] != j {
      LinkMerges(links, src, dst, links[j]);
    }
  }

  /** Following the links from i leads to j. */
  ghost predicate OnWay(links: seq<nat>, i: nat, j: nat)
    requires Falling(links) && i < |links|
    decreases i
  {
    j == i || (links[i] != i && OnWay(links, links[i], j))
  }

  /** Between links and links', the indices on the way from idx that lie above i have been pointed at r. */
  ghost predicate Pointed(links: seq<nat>, links': seq<nat>, idx: nat, i: nat, r: nat) {
    && |links'| == |links| && Falling(links) && idx < |links| && i <= idx && OnWay(links, idx, i) &&
      r == Root(links, idx)
    && forall j: nat :: j < |links| ==> links'[j] == if OnWay(links, idx, j) && j > i then r else links[j]
  }

  /** The way from idx has one index at a time: behind i comes the link of i, and nothing in between. */
  lemma {:induction false} OnWayNext(links: seq<nat>, idx: nat, i: nat)
    requires Falling(links) && idx < |links| && i < |links| && OnWay(links, idx, i) && links[i] != i
    ensures OnWay(links, idx, links[i]) && forall j: nat :: links[i] < j < i ==> !OnWay(links, idx, j)
    decreases idx
  {
    OnWayFalls(links, links[i]);
    if i == idx {
      assert OnWay(links, links[i], links[i]);
    } else {
      OnWayFalls(links, links[idx]);
      OnWayNext(links, links[idx], i);
    }
  }

  lemma {:induction false} OnWayFalls(links: seq<nat>, i: nat)
    requires Falling(links) && i < |links|
    ensures forall j: nat :: OnWay(links, i, j) ==> j <= i && Root(links, j) == Root(links, i)
    decreases i
  {
    if links[i] != i {
      OnWayFalls(links, links[i]);
    }
  }

  class UnionFind {
    var cnt: nat
    var max: nat
    var indices: array<nat>

    ghost predicate Valid()
      reads this, indices
    {
      && cnt <= max == indices.Length
      && Falling(indices[..cnt])
    }

    ghost function Links(): (s: seq<nat>)
      requires Valid()
      reads this, indices
      ensures Falling(s)
    {
      indices[..cnt]
    }

    constructor (max: nat)
      ensures Valid() && fresh(indices)
      ensures cnt == max && Links() == seq(max, _ => 0)
    {
      this.cnt, this.max := max, max;
      indices := new nat[max](_ => 0);
    }

    /** Makes the array long enough for index from. */
    method Grow(from: nat)
      requires Valid()
      modifies this
      ensures Valid() && cnt == old(cnt) && from < max
      ensures (indices == old(indices) || fresh(indices)) && Links() == old(Links())
    {
      if from >= max {
        var size := 16;
        while size <= from
          invariant size > 0
        {
          size := size * 2;
        }
        var grown := new nat[size](_ => 0);
        forall k | 0 <= k < max {
          grown[k] := indices[k];
        }
        assert grown[..cnt] == indices[..cnt];
        indices, max := grown, size;
      }
    }

    /** Makes room for index from, all new indices linked to 0, and links it to `to`. */
    method Extend(from: nat, to: nat)
      requires Valid() && to <= from
      modifies this, indices
      ensures Valid() && (indices == old(indices) || fresh(indices))
      ensures cnt == if old(cnt) <= from then from + 1 else old(cnt)
      ensures Links() == (old(Links()) + seq(cnt - old(cnt), _ => 0))[from := to]
    {
      ghost var was := Links();
      Grow(from);
      ghost var start := cnt;
      while cnt <= from
        invariant start <= cnt && (cnt <= from + 1 || cnt == start)
        invariant max == indices.Length && cnt <= max && from < max
        invariant indices[..start] == was
        invariant forall i :: start <= i < cnt ==> indices[i] == 0
        invariant indices == old(indices) || fresh(indices)
      {
        indices[cnt] := 0;
        cnt := cnt + 1;
      }
      assert indices[..cnt] == was + seq(cnt - start, _ => 0);
      indices[from] := to;
    }

    /** The identity partition on the indices below max. */
    method Reset(max: nat)
      requires Valid()
      modifies this, indices
      ensures Valid() && (indices == old(indices) || fresh(indices))
      ensures cnt > max && forall i :: 0 <= i < max ==> Links()[i] == i && Root(Links(), i) == i
    {
      Extend(max, 0);
      var i := 0;
      while i < max
        invariant i <= max
        invariant Valid() && cnt > max
        invariant forall j :: 0 <= j < i ==> indices[j] == j
        invariant indices == old(indices) || fresh(indices)
      {
        indices[i] := i;
        i := i + 1;
      }
    }

    /** Follows the links from idx, then points every index on the way at the representative, and no other. */
    method FindCompress(idx: nat) returns (r: nat)
      requires Valid() && idx < cnt
      modifies indices
      ensures Valid() && r == Root(old(Links()), idx)
      ensures forall j: nat :: j < cnt ==> indices[j] == if OnWay(old(Links()), idx, j) then r else old(indices[j])
      ensures Reps(Links()) == old(Reps(Links()))
      ensures r < old(cnt) && Root(Links(), r) == r
    {
      var cur := idx;
      var next := indices[cur];
      while next != cur
        invariant cur < cnt && next == indices[cur]
        invariant Root(Links(), cur) == Root(Links(), idx)
        decreases cur
      {
        cur := next;
        next := indices[cur];
      }
      ghost var was := Links();
      OnWayFalls(was, idx);
      assert Root(was, cur) == next;
      var i: nat := idx;
      while i != next
        invariant Valid() && i < cnt && Pointed(was, Links(), idx, i, next) && Reps(Links()) == Reps(was)
        decreases i
      {
        ghost var now := Links();
        OnWayNext(was, idx, i);
        assert Reps(was)[i] == Root(was, i) == Root(now, i);
        var tmp := indices[i];
        indices[i] := next;
        assert Links() == now[i := Root(now, i)];
        forall j: nat | j < cnt ensures Root(Links(), j) == Root(now, j) {
          CompressKeeps(now, i, j);
        }
        i := tmp;
      }
      r := i;
      assert Reps(was)[r] == Root(was, r) == Root(Links(), r);
    }

    method Find(idx: nat) returns (r: nat)
      requires Valid() && idx < cnt
      modifies indices
      ensures Valid() && r == Root(old(Links()), idx)
      ensures Reps(Links()) == old(Reps(Links()))
      ensures r < old(cnt) && Root(Links(), r) == r
    {
      if indices[idx] == idx {
        r := idx;
      } else {
        r := FindCompress(idx);
      }
    }

    /** The same answer, without compressing; indices off the end stand for themselves. */
    method FindConst(idx: nat) returns (r: nat)
      requires Valid() && (idx < cnt || idx >= max)
      ensures r == if idx < cnt then Root(Links(), idx) else idx
    {
      if idx == 0 || idx >= max {
        return idx;
      }
      var cur := idx;
      var next := indices[cur];
      while next != cur
        invariant cur < cnt && next == indices[cur]
        invariant Root(Links(), cur) == Root(Links(), idx)
        decreases cur
      {
        cur := next;
        next := indices[cur];
      }
      return next;
    }

    /** Links from to `to`; two representatives are merged by it. */
    method Map(from: nat, to: nat)
      requires Valid() && to <= from < cnt
      modifies indices
      ensures Valid() && Links() == old(Links())[from := to]
      ensures to < from && old(Root(Links(), from)) == from && old(Root(Links(), to)) == to ==>
        Reps(Links()) == Merged(old(Reps(Links())), to, from)
    {
      ghost var was := Links();
      indices[from] := to;
      assert Links() == was[from := to];
      if to < from && Root(was, from) == from && Root(was, to) == to {
        forall j: nat | j < cnt ensures Reps(Links())[j] == Merged(Reps(was), to, from)[j] {
          LinkMerges(was, to, from, j);
        }
      }
    }

    /** Merges the classes of idx1 and idx2, and no others, under the representative of idx1. */
    method Union(idx1: nat, idx2: nat)
      requires Valid() && idx1 < cnt && idx2 < cnt
      requires Root(Links(), idx1) < Root(Links(), idx2)
      modifies indices
      ensures Valid()
      ensures Reps(Links()) == Merged(old(Reps(Links())), old(Root(Links(), idx1)), old(Root(Links(), idx2)))
    {
      ghost var reps := Reps(Links());
      var src := Find(idx1);
      assert reps[idx2] == Root(Links(), idx2);
      var dst := Find(idx2);
      ghost var was := Links();
      assert reps[src] == Root(was, src) && reps[dst] == Root(was, dst);
      indices[dst] := src;
      assert Links() == was[dst := src];
      forall j: nat | j < cnt ensures Reps(Links())[j] == Merged(reps, src, dst)[j] {
        LinkMerges(was, src, dst, j);
        assert reps[j] == Root(was, j);
      }
    }
  }

  /** The partition with the class of dst merged into the class of src. */
  ghost function Merged(reps: seq<nat>, src: nat, dst: nat): (s: seq<nat>)
    ensures |s| == |reps|
    ensures forall j :: 0 <= j < |s| ==> s[j] == if reps[j] == dst then src else reps[j]
  {
    seq(|reps|, j requires 0 <= j < |reps| => if reps[j] == dst then src else reps[j])
  }
}
