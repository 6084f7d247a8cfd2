/** What eval_mm_valid establishes about mm.c, and exactly which traces it accepts. */
module MallocValidity {
  import opened Arithmetic
  import opened MemLib
  import opened Mm
  import opened RangeList
  import opened Traces
  import opened MallocDriver

  /** The replay of a longer trace goes on from the replay of a shorter one. */
  lemma {:induction false} ReplaySnoc(base: int, st: State, ops: seq<Op>, op: Op)
    requires Shape(base, st) && Fits(ops + [op], |st.blocks|) && Fits(ops, |st.blocks|) && op.index < |st.blocks|
    ensures var v := Replay(base, st, ops);
            Replay(base, st, ops + [op]) == if v.Good? then Step(base, v.st, op) else v
    decreases |ops|
  {
    assert (ops + [op])[|ops|] == op;
    if ops == [] {
      assert [op][1..] == [] && ops + [op] == [op];
    } else {
      var v := Step(base, st, ops[0]);
      assert (ops + [op])[1..] == ops[1..] + [op] && (ops + [op])[0] == ops[0];
      if v.Good? {
        ReplaySnoc(base, v.st, ops[1..], op);
      }
    }
  }

  lemma ReplayLast(base: int, st: State, ops: seq<Op>)
    requires Shape(base, st) && Fits(ops, |st.blocks|) && ops != []
    ensures Fits(ops[..|ops| - 1], |st.blocks|)
    ensures var v := Replay(base, st, ops[..|ops| - 1]);
            Replay(base, st, ops) == if v.Good? then Step(base, v.st, ops[|ops| - 1]) else v
  {
    var some := ops[..|ops| - 1];
    assert some + [ops[|ops| - 1]] == ops;
    ReplaySnoc(base, st, some, ops[|ops| - 1]);
  }

  // ------------------------------------------------------------------ which traces are accepted

  /** The break is aligned and everything recorded lies below it. */
  ghost predicate Packed(base: int, st: State) {
    && Shape(base, st) && Aligned(st.brk)
    && forall r :: r in st.ranges ==> r.hi < st.brk
  }

  /** The condition under which an operation is accepted. */
  predicate Passes(base: int, st: State, op: Op)
    requires Shape(base, st) && op.index < |st.blocks|
  {
    !op.Free? ==>
      && op.size > 0 && st.brk + Round8(op.size) <= base + MAX_HEAP
      && (op.Realloc? ==> Stamped(st.bytes, st.brk - base, Stamp(op.index), Min(op.size, st.sizes[op.index])))
  }

  lemma {:induction false} WithoutFirstSubset(rs: seq<Range>, lo: int)
    ensures forall r :: r in WithoutFirst(rs, lo) ==> r in rs
  {
    if rs != [] && rs[0].lo != lo {
      WithoutFirstSubset(rs[1..], lo);
    }
  }

  /** A block at the break passes the three tests of add_range; the address -1 fails the first. */
  lemma AcceptsAtBreak(base: int, brk: int, p: int, newBrk: int, size: int, ranges: seq<Range>)
    requires 0 < base <= brk <= base + MAX_HEAP && Aligned(brk) && size > 0
    requires forall r :: r in ranges ==> r.hi < brk
    requires (p, newBrk) == if brk + Round8(size) <= base + MAX_HEAP then (brk, brk + Round8(size)) else (FAILED, brk)
    ensures Accepts(base, newBrk, ranges, p, size) <==> brk + Round8(size) <= base + MAX_HEAP
    ensures Aligned(newBrk)
  {
    hide Aligned, Round8;
    assert size <= Round8(size) by { Round8Bounds(size); }
    RoundedAligned(brk, size);
    if brk + Round8(size) <= base + MAX_HEAP {
      forall i | 0 <= i < |ranges| ensures !Hits(p, p + size - 1, ranges[i]) {
        assert ranges[i] in ranges;
      }
    }
  }

  lemma RoundedAligned(brk: int, size: int)
    requires Aligned(brk)
    ensures Aligned(brk + Round8(size)) && !Aligned(FAILED)
  {
    Round8Bounds(size);
    hide Round8;
  }

  /** A size that is not positive is never accepted. */
  lemma NotPositive(base: int, st: State, op: Op)
    requires Shape(base, st) && op.index < |st.blocks| && !op.Free? && IsInt(op.size) && op.size <= 0
    ensures !Step(base, st, op).Good?
    ensures op.size == 0 ==> Step(base, st, op).Bad?
  {
    hide Accepts, WithoutFirst, Stamped;
    if op.size == 0 {
      assert SizeT(0) == 0 && Rounded(0) == 0;
    }
  }

  lemma StepPasses(base: int, st: State, op: Op)
    requires Packed(base, st) && op.index < |st.blocks| && (!op.Free? ==> IsInt(op.size))
    ensures Step(base, st, op).Good? <==> Passes(base, st, op)
  {
    if !op.Free? && op.size <= 0 {
      NotPositive(base, st, op);
    } else if op.Alloc? {
      MallocPositive(base, st.brk, op.size);
      var (p, brk) := Malloc(base, st.brk, SizeT(op.size));
      AcceptsAtBreak(base, st.brk, p, brk, op.size, st.ranges);
      hide Malloc, Accepts, Stamped, Placed, Rounded, Round8, SizeT;
    } else if op.Realloc? {
      ReallocPositive(base, st.brk, st.blocks[op.index], op.size);
      var (p, brk) := Mm.Realloc(base, st.brk, st.blocks[op.index], SizeT(op.size));
      var ranges := WithoutFirst(st.ranges, st.blocks[op.index]);
      WithoutFirstSubset(st.ranges, st.blocks[op.index]);
      AcceptsAtBreak(base, st.brk, p, brk, op.size, ranges);
      hide Mm.Realloc, Accepts, Stamped, Placed, Rounded, WithoutFirst, Round8, SizeT;
    }
  }

  /** What an accepted operation does. */
  ghost predicate Moves(base: int, st: State, op: Op, next: State)
    requires Shape(base, st) && Shape(base, next) && |st.blocks| == |next.blocks| && op.index < |st.blocks|
  {
    if op.Free? then
      next == st.(ranges := WithoutFirst(st.ranges, st.blocks[op.index]))
    else
      && next.brk == st.brk + Round8(op.size)
      && next.blocks == st.blocks[op.index := st.brk] && next.sizes == st.sizes[op.index := op.size]
      && op.size > 0 && st.brk + op.size <= next.brk
      && next.bytes == Filled(st.bytes, st.brk - base, Stamp(op.index), op.size)
      && next.ranges == [Range(st.brk, st.brk + op.size - 1)]
                      + if op.Alloc? then st.ranges else WithoutFirst(st.ranges, st.blocks[op.index])
  }

  lemma StepMoves(base: int, st: State, op: Op)
    requires Packed(base, st) && op.index < |st.blocks| && (!op.Free? ==> IsInt(op.size)) && Step(base, st, op).Good?
    ensures Moves(base, st, op, Step(base, st, op).st)
  {
    StepPasses(base, st, op);
    if !op.Free? {
      MallocPositive(base, st.brk, op.size);
      ReallocPositive(base, st.brk, st.blocks[op.index], op.size);
      Round8Bounds(op.size);
      hide Mm.Realloc, Malloc, Accepts, Stamped, Rounded, WithoutFirst, Round8, SizeT, Filled;
    }
  }

  lemma PackedStep(base: int, st: State, op: Op, next: State)
    requires Packed(base, st) && Shape(base, next) && |st.blocks| == |next.blocks| && op.index < |st.blocks|
    requires Moves(base, st, op, next)
    ensures Packed(base, next) && st.brk <= next.brk
    ensures forall i :: next.brk - base <= i < MAX_HEAP ==> next.bytes[i] == st.bytes[i]
  {
    WithoutFirstSubset(st.ranges, st.blocks[op.index]);
    if !op.Free? {
      Round8Bounds(op.size);
    }
    hide WithoutFirst;
  }

  /** Every realloc finds, in the heap as it was at the start, the stamp that a copy of the old block
      would have left. */
  ghost predicate ReallocsFindStamps(start: State, ops: seq<Op>)
    requires Fits(ops, |start.sizes|)
  {
    forall k {:trigger ops[k]} :: 0 <= k < |ops| ==> ops[k].Realloc? ==> FindsStamp(start, ops, k)
  }

  /** The bytes are the low byte of the index, up to the smaller of the new and the old size. */
  predicate FindsStamp(start: State, ops: seq<Op>, k: nat)
    requires Fits(ops, |start.sizes|) && k < |ops| && ops[k].Realloc?
  {
    var from := Total(ops[..k]);
    var size := Min(ops[k].size, SizeOf(start.sizes, ops[..k], ops[k].index));
    forall a :: 0 <= a < |start.bytes| && from <= a < from + size ==> start.bytes[a] == ops[k].index % 256
  }

  /** The empty heap with which eval_mm_valid begins; what its bytes and arrays hold is unknown. */
  ghost predicate Fresh(base: int, st: State) {
    Shape(base, st) && st.brk == base && st.ranges == [] && Aligned(base)
  }

  ghost predicate Acceptable(start: State, ops: seq<Op>)
    requires Fits(ops, |start.sizes|)
  {
    AllPositive(ops) && Total(ops) <= MAX_HEAP && ReallocsFindStamps(start, ops)
  }

  lemma AcceptableLast(start: State, ops: seq<Op>)
    requires Fits(ops, |start.sizes|) && ops != []
    ensures var n := |ops| - 1;
      Fits(ops[..n], |start.sizes|) && (Acceptable(start, ops) <==>
        && Acceptable(start, ops[..n])
        && (!ops[n].Free? ==> ops[n].size > 0 && Total(ops[..n]) + Round8(ops[n].size) <= MAX_HEAP)
        && (ops[n].Realloc? ==> FindsStamp(start, ops, n)))
  {
    var n := |ops| - 1;
    var some := ops[..n];
    assert forall k :: 0 <= k < n ==> some[..k] == ops[..k] && some[k] == ops[k];
    assert AllPositive(ops) <==> AllPositive(some) && (!ops[n].Free? ==> ops[n].size > 0);
    assert ReallocsFindStamps(start, ops) <==>
           ReallocsFindStamps(start, some) && (ops[n].Realloc? ==> FindsStamp(start, ops, n)) by {
      forall k | 0 <= k < n && ops[k].Realloc? ensures FindsStamp(start, ops, k) <==> FindsStamp(start, some, k) {
        assert some[..k] == ops[..k];
      }
      assert forall k :: 0 <= k < n ==> ops[k] == some[k];
      hide FindsStamp;
    }
    if !ops[n].Free? && ops[n].size > 0 {
      Round8Bounds(ops[n].size);
    }
  }

  /** A state that the operations have led to from a fresh one. */
  ghost predicate Reached(base: int, start: State, some: seq<Op>, st: State)
    requires Shape(base, start) && Fits(some, |start.blocks|)
  {
    && Packed(base, st) && |st.blocks| == |start.blocks| && st.brk == base + Total(some)
    && (forall i :: 0 <= i < |start.sizes| ==> st.sizes[i] == SizeOf(start.sizes, some, i))
    && (forall i :: 0 <= i < |start.blocks| ==> st.blocks[i] == BumpOf(base, start.blocks, some, i))
    && (forall i :: st.brk - base <= i < MAX_HEAP ==> st.bytes[i] == start.bytes[i])
  }

  /** The accepted traces, and the state they lead to: the break has moved by the rounded sizes, and
      beyond it the heap is as it was. */
  lemma {:induction false} Accepted(base: int, start: State, ops: seq<Op>)
    requires Fresh(base, start) && Fits(ops, |start.blocks|)
    ensures Replay(base, start, ops).Good? <==> Acceptable(start, ops)
    ensures Replay(base, start, ops).Good? ==>
      Reached(base, start, ops, Replay(base, start, ops).st)
    decreases |ops|
  {
    if ops != [] {
      var n := |ops| - 1;
      ReplayLast(base, start, ops);
      AcceptableLast(start, ops);
      Accepted(base, start, ops[..n]);
      var v := Replay(base, start, ops[..n]);
      if v.Good? {
        LastPasses(base, start, ops, v.st);
        if Step(base, v.st, ops[n]).Good? {
          LastMoves(base, start, ops, v.st);
        }
      }
    }
  }

  lemma LastPasses(base: int, start: State, ops: seq<Op>, st: State)
    requires Fresh(base, start) && Fits(ops, |start.blocks|) && ops != []
    requires Fits(ops[..|ops| - 1], |start.blocks|) && Reached(base, start, ops[..|ops| - 1], st)
    ensures var op := ops[|ops| - 1];
      Step(base, st, op).Good? <==>
            && (!op.Free? ==> op.size > 0 && Total(ops[..|ops| - 1]) + Round8(op.size) <= MAX_HEAP)
            && (op.Realloc? ==> FindsStamp(start, ops, |ops| - 1))
  {
    hide Step, Aligned, Round8, Total, SizeOf, BumpOf;
    StepPasses(base, st, ops[|ops| - 1]);
  }

  lemma LastMoves(base: int, start: State, ops: seq<Op>, st: State)
    requires Fresh(base, start) && Fits(ops, |start.blocks|) && ops != []
    requires Fits(ops[..|ops| - 1], |start.blocks|) && Reached(base, start, ops[..|ops| - 1], st)
    requires Step(base, st, ops[|ops| - 1]).Good?
    ensures Reached(base, start, ops, Step(base, st, ops[|ops| - 1]).st)
  {
    hide Step, Aligned, Round8, Stamp;
    var op := ops[|ops| - 1];
    var next := Step(base, st, op).st;
    StepMoves(base, st, op);
    PackedStep(base, st, op, next);
  }

  /** eval_mm_valid accepts a trace of mallocs and frees exactly when every size is positive and the
      rounded sizes fit the heap together. */
  lemma AllocFreeAccepted(base: int, start: State, ops: seq<Op>)
    requires Fresh(base, start) && Fits(ops, |start.blocks|)
    requires forall k :: 0 <= k < |ops| ==> !ops[k].Realloc?
    ensures Replay(base, start, ops).Good? <==> AllPositive(ops) && Total(ops) <= 20 * 1024 * 1024
  {
    Accepted(base, start, ops);
  }

  /** The requests on which add_range fails its assertion: realloc answers NULL to sizes -7 to 0. */
  predicate Asserts(op: Op) {
    (op.Alloc? && op.size < 0) || (op.Realloc? && op.size < -7)
  }

  lemma StepAborts(base: int, st: State, op: Op)
    requires Shape(base, st) && op.index < |st.blocks| && (!op.Free? ==> IsInt(op.size))
    ensures Step(base, st, op).Abort? <==> Asserts(op)
  {
    hide Accepts, WithoutFirst, Stamped, AsInt;
    if !op.Free? {
      var n := SizeT(op.size);
      assert n == if op.size < 0 then op.size + TWO_TO_64 else op.size;
      assert Rounded(n) == 0 <==> -7 <= op.size <= 0;
      assert Rounded(n) < TWO_TO_64;
      assert Rounded(Rounded(n)) == Rounded(n);
      hide Rounded, SizeT;
    }
  }

  /** A trace ends in the failed assertion exactly when it reaches such a request; any other trace that
      is not accepted makes eval_mm_valid return 0. */
  lemma {:induction false} AbortsIff(base: int, start: State, ops: seq<Op>)
    requires Fresh(base, start) && Fits(ops, |start.blocks|)
    ensures Replay(base, start, ops).Abort? <==>
      exists k :: 0 <= k < |ops| && Asserts(ops[k]) && Acceptable(start, ops[..k])
    decreases |ops|
  {
    if ops != [] {
      hide Step, Asserts, Acceptable, Shape;
      var n := |ops| - 1;
      ReplayLast(base, start, ops);
      AbortsIff(base, start, ops[..n]);
      Accepted(base, start, ops[..n]);
      assert forall k :: 0 <= k < n ==> ops[..n][..k] == ops[..k] && ops[..n][k] == ops[k];
      var v := Replay(base, start, ops[..n]);
      if v.Good? {
        StepAborts(base, v.st, ops[n]);
      }
    }
  }

  /** In particular an exhausted heap and a stamp that is not found make it return 0. */
  lemma PositiveNeverAborts(base: int, start: State, ops: seq<Op>)
    requires Fresh(base, start) && Fits(ops, |start.blocks|) && AllPositive(ops)
    ensures Replay(base, start, ops) == Bad <==> !Acceptable(start, ops)
  {
    AbortsIff(base, start, ops);
    Accepted(base, start, ops);
    hide Acceptable, Replay;
  }

  /** A realloc that does not copy is noticed when the heap starts out zero, unless the stamp is zero. */
  lemma ReallocRejected(base: int, start: State, ops: seq<Op>, k: nat)
    requires Fresh(base, start) && Fits(ops, |start.blocks|) && (forall i :: 0 <= i < MAX_HEAP ==> start.bytes[i] == 0)
    requires k < |ops| && ops[k].Realloc? && ops[k].index % 256 != 0 && SizeOf(start.sizes, ops[..k], ops[k].index) > 0
    ensures !Replay(base, start, ops).Good?
  {
    Accepted(base, start, ops);
    if AllPositive(ops) && Total(ops) <= MAX_HEAP {
      TotalGrows(ops, k);
      assert ops[k].size > 0;
      assert start.bytes[Total(ops[..k])] == 0;
      assert !FindsStamp(start, ops, k);
    }
  }

  // ------------------------------------------------------------------ blocks and stamps

  /** The recorded ranges of any accepted trace are pairwise disjoint, well-formed or not. */
  lemma {:induction false} AcceptedDisjoint(base: int, start: State, ops: seq<Op>)
    requires Fresh(base, start) && Fits(ops, |start.blocks|) && Replay(base, start, ops).Good?
    ensures Disjoint(Replay(base, start, ops).st.ranges)
    decreases |ops|
  {
    if ops != [] {
      hide Disjoint, Step, Moves, Replay;
      var n := |ops| - 1;
      ReplayLast(base, start, ops);
      Accepted(base, start, ops[..n]);
      AcceptedDisjoint(base, start, ops[..n]);
      var st := Replay(base, start, ops[..n]).st;
      StepMoves(base, st, ops[n]);
      MovesDisjoint(base, st, ops[n], Step(base, st, ops[n]).st);
    }
  }

  lemma MovesDisjoint(base: int, st: State, op: Op, next: State)
    requires Packed(base, st) && Shape(base, next) && |st.blocks| == |next.blocks| && op.index < |st.blocks|
    requires Moves(base, st, op, next) && Disjoint(st.ranges)
    ensures Disjoint(next.ranges)
  {
    hide Disjoint, WithoutFirst, Filled, Round8;
    var others := if op.Alloc? then st.ranges else WithoutFirst(st.ranges, st.blocks[op.index]);
    WithoutFirstDisjoint(st.ranges, st.blocks[op.index]);
    WithoutFirstSubset(st.ranges, st.blocks[op.index]);
    if !op.Free? {
      var r := Range(st.brk, st.brk + op.size - 1);
      forall k | 0 <= k < |others| ensures Apart(r, others[k]) {
        assert others[k] in others;
      }
      DisjointCons(r, others);
    }
  }

  function Extent(st: State, i: nat): Range
    requires i < |st.blocks| == |st.sizes|
  {
    Range(st.blocks[i], st.blocks[i] + st.sizes[i] - 1)
  }

  /** Every byte of block i is the low byte of i. */
  ghost predicate BlockStamped(base: int, st: State, i: nat)
    requires Shape(base, st) && i < |st.blocks|
  {
    var from := st.blocks[i] - base;
    forall a :: 0 <= a < |st.bytes| && from <= a < from + st.sizes[i] ==> st.bytes[a] == i % 256
  }

  /** Live blocks lie in the heap, are pairwise disjoint and stamped, and the list holds exactly their
      extents, each once. */
  ghost predicate BlocksIntact(base: int, st: State, live: set<nat>) {
    && Shape(base, st) && (forall i :: i in live ==> i < |st.blocks|)
    && (forall i :: i in live ==> base <= Extent(st, i).lo <= Extent(st, i).hi < st.brk && BlockStamped(base, st, i))
    && (forall i, j :: i in live && j in live && i != j ==> Apart(Extent(st, i), Extent(st, j)))
    && Disjoint(st.ranges)
    && (forall i :: i in live ==> Extent(st, i) in st.ranges)
    && (forall r :: r in st.ranges ==> exists i :: i in live && r == Extent(st, i))
  }

  lemma {:induction false} WithoutFirstMembers(rs: seq<Range>, lo: int)
    requires Disjoint(rs)
    ensures forall r :: r in WithoutFirst(rs, lo) <==> r in rs && r.lo != lo
  {
    if rs != [] {
      assert Disjoint(rs[1..]);
      assert forall r :: r in rs <==> r == rs[0] || r in rs[1..];
      if rs[0].lo == lo {
        forall r | r in rs[1..] ensures r.lo != lo {
          assert Apart(rs[0], r) && r.lo <= r.hi;
        }
      } else {
        WithoutFirstMembers(rs[1..], lo);
      }
    }
  }

  /** A block leaves the list. */
  function Released(st: State, i: nat): State
    requires i < |st.blocks|
  {
    st.(ranges := WithoutFirst(st.ranges, st.blocks[i]))
  }

  /** A block at the break is recorded, stamped and remembered. */
  ghost predicate Takes(base: int, st: State, i: nat, size: int, next: State)
    requires Shape(base, st) && Shape(base, next) && |st.blocks| == |next.blocks| && i < |st.blocks|
  {
    && size > 0 && st.brk + size <= next.brk
    && next.blocks == st.blocks[i := st.brk] && next.sizes == st.sizes[i := size]
    && next.bytes == Filled(st.bytes, st.brk - base, Stamp(i), size)
    && next.ranges == [Range(st.brk, st.brk + size - 1)] + st.ranges
  }

  lemma ReleasedIntact(base: int, st: State, live: set<nat>, i: nat)
    requires BlocksIntact(base, st, live) && i in live
    ensures BlocksIntact(base, Released(st, i), live - {i})
  {
    var next := Released(st, i);
    var lo := st.blocks[i];
    assert forall j :: j in live ==>
             Extent(next, j) == Extent(st, j) && (BlockStamped(base, next, j) <==> BlockStamped(base, st, j));
    WithoutFirstMembers(st.ranges, lo);
    WithoutFirstDisjoint(st.ranges, lo);
    forall j | j in live - {i} ensures Extent(next, j) in next.ranges {
      assert Apart(Extent(st, i), Extent(st, j)) && Extent(st, j) in st.ranges;
    }
    hide WithoutFirst, Disjoint, BlockStamped;
  }

  lemma TakenIntact(base: int, st: State, live: set<nat>, i: nat, size: int, next: State)
    requires BlocksIntact(base, st, live) && i !in live && Packed(base, st)
    requires Shape(base, next) && |st.blocks| == |next.blocks| && i < |st.blocks| && Takes(base, st, i, size, next)
    ensures BlocksIntact(base, next, live + {i})
  {
    hide Disjoint, Filled;
    assert forall j :: j in live ==> Extent(next, j) == Extent(st, j);
    assert Extent(next, i) == Range(st.brk, st.brk + size - 1);
    forall j | j in live ensures BlockStamped(base, next, j) {
      assert BlockStamped(base, st, j) && Extent(st, j).hi < st.brk;
    }
    assert BlockStamped(base, next, i);
    DisjointCons(Extent(next, i), st.ranges);
    forall k | 0 <= k < |st.ranges| ensures Apart(Extent(next, i), st.ranges[k]) {
      assert st.ranges[k] in st.ranges;
    }
    hide BlockStamped;
  }

  lemma StepIntact(base: int, st: State, live: set<nat>, op: Op, next: State)
    requires BlocksIntact(base, st, live) && Packed(base, st) && op.index < |st.blocks|
    requires op.Alloc? <==> op.index !in live
    requires Shape(base, next) && |st.blocks| == |next.blocks| && Moves(base, st, op, next)
    ensures BlocksIntact(base, next, if op.Free? then live - {op.index} else live + {op.index})
  {
    var i := op.index;
    if op.Alloc? {
      TakenIntact(base, st, live, i, op.size, next);
    } else {
      ReleasedIntact(base, st, live, i);
      if op.Realloc? {
        var mid := Released(st, i);
        WithoutFirstSubset(st.ranges, st.blocks[i]);
        assert Packed(base, mid) by { hide WithoutFirst; }
        assert Takes(base, mid, i, op.size, next) by { hide WithoutFirst, Filled; }
        TakenIntact(base, mid, live - {i}, i, op.size, next);
        assert live - {i} + {i} == live + {i};
      }
    }
    hide BlocksIntact, Packed, WithoutFirst, Filled, Round8;
  }

  lemma {:induction false} AcceptedIntact(base: int, start: State, ops: seq<Op>)
    requires Fresh(base, start) && Fits(ops, |start.blocks|) && WellFormed(ops)
    requires Replay(base, start, ops).Good?
    ensures BlocksIntact(base, Replay(base, start, ops).st, Live(ops))
    decreases |ops|
  {
    if ops != [] {
      var n := |ops| - 1;
      ReplayLast(base, start, ops);
      WellFormedPrefix(ops);
      AcceptedIntact(base, start, ops[..n]);
      Accepted(base, start, ops[..n]);
      var st := Replay(base, start, ops[..n]).st;
      StepMoves(base, st, ops[n]);
      StepIntact(base, st, Live(ops[..n]), ops[n], Step(base, st, ops[n]).st);
    }
    hide BlocksIntact, Packed, Step, Moves;
  }

  /** On a well-formed trace, after every accepted operation every byte of every live block is its
      stamp: no later memset reaches a live block. */
  lemma StampsLast(base: int, start: State, ops: seq<Op>, k: nat)
    requires Fresh(base, start) && Fits(ops, |start.blocks|) && WellFormed(ops) && k <= |ops|
    requires Replay(base, start, ops[..k]).Good?
    ensures BlocksIntact(base, Replay(base, start, ops[..k]).st, Live(ops[..k]))
  {
    var some := ops[..k];
    forall j | 0 <= j < |some| ensures some[j].Alloc? <==> some[j].index !in Live(some[..j]) {
      assert some[..j] == ops[..j] && some[j] == ops[j];
    }
    AcceptedIntact(base, start, some);
  }
}
