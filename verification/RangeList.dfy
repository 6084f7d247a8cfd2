/** The range list of mdriver.c: a singly linked list of payload extents. */
module RangeList {
  import opened MemLib

  const ALIGNMENT := 8

  datatype Range = Range(lo: int, hi: int)

  /** IS_ALIGNED */
  predicate Aligned(p: int) { p % ALIGNMENT == 0 }

  /** The payload lies within the extent [base, brk) of the heap. */
  predicate InHeap(base: int, brk: int, lo: int, hi: int) {
    !(lo < base || lo > brk - 1 || hi < base || hi > brk - 1)
  }

  /** The overlap test of add_range: one of the new ends lies in the recorded range. */
  predicate Hits(lo: int, hi: int, r: Range) {
    (r.lo <= lo <= r.hi) || (r.lo <= hi <= r.hi)
  }

  predicate HitsAny(lo: int, hi: int, rs: seq<Range>) {
    exists i :: 0 <= i < |rs| && Hits(lo, hi, rs[i])
  }

  /** add_range accepts a new block. */
  predicate Accepts(base: int, brk: int, rs: seq<Range>, lo: int, size: int) {
    Aligned(lo) && InHeap(base, brk, lo, lo + size - 1) && !HitsAny(lo, lo + size - 1, rs)
  }

  /** The list without its first range that starts at lo. */
  function WithoutFirst(rs: seq<Range>, lo: int): seq<Range> {
    if rs == [] then [] else if rs[0].lo == lo then rs[1..] else [rs[0]] + WithoutFirst(rs[1..], lo)
  }

  lemma {:induction false} WithoutFirstAt(rs: seq<Range>, lo: int, k: nat)
    requires k < |rs| && rs[k].lo == lo && forall i :: 0 <= i < k ==> rs[i].lo != lo
    ensures WithoutFirst(rs, lo) == rs[..k] + rs[k + 1..]
  {
    if k > 0 {
      WithoutFirstAt(rs[1..], lo, k - 1);
    }
  }

  lemma {:induction false} WithoutFirstNone(rs: seq<Range>, lo: int)
    requires forall i :: 0 <= i < |rs| ==> rs[i].lo != lo
    ensures WithoutFirst(rs, lo) == rs
  {
    if rs != [] {
      WithoutFirstNone(rs[1..], lo);
    }
  }

  class Node {
    const lo: int
    const hi: int
    var next: Node?

    constructor (lo: int, hi: int, next: Node?)
      ensures this.lo == lo && this.hi == hi && this.next == next
    {
      this.lo, this.hi, this.next := lo, hi, next;
    }
  }

  ghost function RangesOf(ns: seq<Node>): (r: seq<Range>)
    ensures |r| == |ns| && forall i :: 0 <= i < |r| ==> r[i] == Range(ns[i].lo, ns[i].hi)
  {
    seq(|ns|, i requires 0 <= i < |ns| => Range(ns[i].lo, ns[i].hi))
  }

  class List {
    var head: Node?
    ghost var nodes: seq<Node>

    /** The list is acyclic and consists of `nodes`. */
    ghost predicate Valid()
      reads this, nodes
    {
      && head == (if nodes == [] then null else nodes[0])
      && (forall i {:trigger nodes[i].next} :: 0 <= i < |nodes| ==>
            nodes[i].next == (if i + 1 < |nodes| then nodes[i + 1] else null))
      && (forall i, j :: 0 <= i < j < |nodes| ==> nodes[i] != nodes[j])
    }

    ghost function Contents(): seq<Range>
      reads this
    {
      RangesOf(nodes)
    }

    constructor ()
      ensures Valid() && nodes == [] && Contents() == []
    {
      head := null;
      nodes := [];
    }

    /** add_range; the caller has checked assert(size > 0). */
    method Add(mem: Memory, lo: int, size: int) returns (ok: bool)
      requires Valid() && mem.Valid() && size > 0
      modifies this
      ensures Valid() && fresh(set n | n in nodes && n !in old(nodes))
      ensures ok == Accepts(mem.start, mem.brk, old(Contents()), lo, size)
      ensures Contents() == if ok then [Range(lo, lo + size - 1)] + old(Contents()) else old(Contents())
    {
      var hi := lo + size - 1;
      if lo % ALIGNMENT != 0 {
        return false;
      }
      if lo < mem.start || lo > mem.brk - 1 || hi < mem.start || hi > mem.brk - 1 {
        return false;
      }
      var p := head;
      ghost var i := 0;
      while p != null
        invariant 0 <= i <= |nodes|
        invariant p == if i < |nodes| then nodes[i] else null
        invariant forall k :: 0 <= k < i ==> !Hits(lo, hi, Contents()[k])
        decreases |nodes| - i
      {
        if (lo >= p.lo && lo <= p.hi) || (hi >= p.lo && hi <= p.hi) {
          assert Hits(lo, hi, Contents()[i]);
          return false;
        }
        p := p.next;
        i := i + 1;
      }
      var n := new Node(lo, hi, head);
      head := n;
      nodes := [n] + nodes;
      assert Contents() == [Range(lo, hi)] + old(Contents());
      return true;
    }

    /** *prevpp = p->next, where prevpp points to the head or to prev->next. */
    method Unlink(prev: Node?, p: Node, ghost i: nat)
      requires Valid() && i < |nodes| && p == nodes[i] && prev == (if i == 0 then null else nodes[i - 1])
      modifies this, nodes
      ensures Valid() && nodes == old(nodes)[..i] + old(nodes)[i + 1..]
    {
      if prev == null {
        head := p.next;
      } else {
        prev.next := p.next;
      }
      nodes := nodes[..i] + nodes[i + 1..];
    }

    /** remove_range */
    method Remove(lo: int)
      requires Valid()
      modifies this, nodes
      ensures Valid() && (forall n | n in nodes :: n in old(nodes))
      ensures Contents() == WithoutFirst(old(Contents()), lo)
    {
      var prev: Node? := null;
      var p := head;
      ghost var i := 0;
      while p != null
        invariant 0 <= i <= |nodes|
        invariant p == if i < |nodes| then nodes[i] else null
        invariant prev == if i == 0 then null else nodes[i - 1]
        invariant forall k :: 0 <= k < i ==> nodes[k].lo != lo
        decreases |nodes| - i
      {
        if p.lo == lo {
          WithoutFirstAt(Contents(), lo, i);
          Unlink(prev, p, i);
          assert Contents() == old(Contents())[..i] + old(Contents())[i + 1..];
          return;
        }
        prev := p;
        p := p.next;
        i := i + 1;
      }
      WithoutFirstNone(Contents(), lo);
    }

    /** clear_ranges */
    method Clear()
      requires Valid()
      modifies this
      ensures Valid() && Contents() == [] && nodes == []
    {
      var p := head;
      ghost var i := 0;
      while p != null
        invariant 0 <= i <= |nodes| && p == if i < |nodes| then nodes[i] else null
        decreases |nodes| - i
      {
        p := p.next;
        i := i + 1;
      }
      head := null;
      nodes := [];
    }
  }

  // ------------------------------------------------------------------ what the overlap test is worth

  predicate Apart(a: Range, b: Range) { a.hi < b.lo || b.hi < a.lo }

  /** Recorded ranges are non-empty and pairwise disjoint. */
  ghost predicate Disjoint(rs: seq<Range>) {
    && (forall i :: 0 <= i < |rs| ==> rs[i].lo <= rs[i].hi)
    && (forall i, j :: 0 <= i < j < |rs| ==> Apart(rs[i], rs[j]))
  }

  predicate Encloses(lo: int, hi: int, r: Range) { lo < r.lo && r.hi < hi }

  /** The three tests, spelled out. */
  lemma AcceptsIff(base: int, brk: int, rs: seq<Range>, lo: int, size: int)
    requires size > 0
    ensures Accepts(base, brk, rs, lo, size) <==>
      && lo % 8 == 0 && base <= lo && lo + size <= brk
      && forall i :: 0 <= i < |rs| ==> !(rs[i].lo <= lo <= rs[i].hi) && !(rs[i].lo <= lo + size - 1 <= rs[i].hi)
  {
    var hi := lo + size - 1;
    assert HitsAny(lo, hi, rs) <==> exists i :: 0 <= i < |rs| && Hits(lo, hi, rs[i]);
  }

  lemma NotHitNotEnclosing(lo: int, hi: int, r: Range)
    requires lo <= hi && r.lo <= r.hi && !Hits(lo, hi, r)
    ensures Apart(Range(lo, hi), r) <==> !Encloses(lo, hi, r)
  {
  }

  lemma DisjointCons(a: Range, rs: seq<Range>)
    requires Disjoint(rs) && a.lo <= a.hi
    ensures Disjoint([a] + rs) <==> forall i :: 0 <= i < |rs| ==> Apart(a, rs[i])
  {
    var all := [a] + rs;
    if Disjoint(all) {
      forall i | 0 <= i < |rs| ensures Apart(a, rs[i]) {
        assert all[i + 1] == rs[i] && Apart(all[0], all[i + 1]);
      }
    }
    if forall i :: 0 <= i < |rs| ==> Apart(a, rs[i]) {
      forall i, j | 0 <= i < j < |all| ensures Apart(all[i], all[j]) {
        assert all[j] == rs[j - 1] && (i > 0 ==> all[i] == rs[i - 1]);
      }
    }
    hide Apart;
  }

  /** An accepted block keeps the list disjoint if and only if it does not enclose a recorded range:
      the overlap test looks only at the ends of the new block. */
  lemma AcceptedDisjointIff(base: int, brk: int, rs: seq<Range>, lo: int, size: int)
    requires size > 0 && Disjoint(rs) && Accepts(base, brk, rs, lo, size)
    ensures Disjoint([Range(lo, lo + size - 1)] + rs)
        <==> forall i :: 0 <= i < |rs| ==> !Encloses(lo, lo + size - 1, rs[i])
  {
    var hi := lo + size - 1;
    DisjointCons(Range(lo, hi), rs);
    forall i | 0 <= i < |rs| ensures Apart(Range(lo, hi), rs[i]) <==> !Encloses(lo, hi, rs[i]) {
      assert !Hits(lo, hi, rs[i]);
      NotHitNotEnclosing(lo, hi, rs[i]);
    }
    hide Disjoint, Encloses, Apart, HitsAny;
  }

  /** Such a block exists: [8, 39] is accepted although [16, 23] is recorded. */
  lemma EnclosingBlockAccepted()
    ensures Accepts(8, 48, [Range(16, 23)], 8, 32) && Disjoint([Range(16, 23)])
    ensures !Disjoint([Range(8, 39), Range(16, 23)])
  {
    var rs := [Range(8, 39), Range(16, 23)];
    assert !Apart(rs[0], rs[1]);
  }

  lemma {:induction false} WithoutFirstDisjoint(rs: seq<Range>, lo: int)
    requires Disjoint(rs)
    ensures Disjoint(WithoutFirst(rs, lo))
  {
    if forall i :: 0 <= i < |rs| ==> rs[i].lo != lo {
      WithoutFirstNone(rs, lo);
    } else {
      var k := FirstAt(rs, lo);
      WithoutFirstAt(rs, lo, k);
    }
  }

  lemma {:induction false} FirstAt(rs: seq<Range>, lo: int) returns (k: nat)
    requires exists i :: 0 <= i < |rs| && rs[i].lo == lo
    ensures k < |rs| && rs[k].lo == lo && forall i :: 0 <= i < k ==> rs[i].lo != lo
  {
    if rs[0].lo == lo {
      k := 0;
    } else {
      var j := FirstAt(rs[1..], lo);
      k := j + 1;
    }
  }
}
