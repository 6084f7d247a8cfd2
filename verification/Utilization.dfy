/** eval_mm_util of mdriver.c: the high-water mark of the live bytes, first for any allocator, then
    for mm.c. */
module Utilization {
  import opened MemLib
  import opened Arithmetic
  import opened Mm
  import opened Traces
  import Driver = MallocDriver
  import Validity = MallocValidity

  /** The driver's arrays and statistics. */
  datatype Stats = Stats(blocks: seq<int>, sizes: seq<int>, total: int, max: int)

  /** What the driver records when an operation has been given the address p. */
  function Record(u: Stats, op: Op, p: int): (r: Stats)
    requires op.index < |u.blocks| == |u.sizes|
    ensures |r.blocks| == |r.sizes| == |u.sizes|
  {
    var i := op.index;
    match op
    case Alloc(_, size) =>
      Stats(u.blocks[i := p], u.sizes[i := size], u.total + size, Max(u.total + size, u.max))
    case Realloc(_, size) =>
      var total := u.total + (size - u.sizes[i]);
      Stats(u.blocks[i := p], u.sizes[i := size], total, Max(total, u.max))
    case Free(_) => u.(total := u.total - u.sizes[i])
  }

  /** The statistics after the operations, operation k having been given the address ps[k]. */
  function Recorded(u: Stats, ops: seq<Op>, ps: seq<int>): (r: Stats)
    requires |ops| <= |ps| && |u.blocks| == |u.sizes| && Fits(ops, |u.sizes|)
    ensures |r.blocks| == |r.sizes| == |u.sizes|
  {
    if ops == [] then u
    else
      var n := |ops| - 1;
      Record(Recorded(u, ops[..n], ps), ops[n], ps[n])
  }

  // ------------------------------------------------------------------ the statistics count live bytes

  /** The sizes of the live blocks among the first n ids, added up. */
  function LiveBytes(sizes: seq<int>, live: set<nat>, n: nat): int
    requires n <= |sizes|
  {
    if n == 0 then 0 else LiveBytes(sizes, live, n - 1) + if n - 1 in live then sizes[n - 1] else 0
  }

  lemma {:induction false} LiveBytesUpdate(sizes: seq<int>, live: set<nat>, i: nat, size: int, n: nat)
    requires i < |sizes| && n <= |sizes|
    ensures LiveBytes(sizes[i := size], live + {i}, n)
         == LiveBytes(sizes, live, n) + if i < n then size - (if i in live then sizes[i] else 0) else 0
    ensures LiveBytes(sizes, live - {i}, n) == LiveBytes(sizes, live, n) - if i < n && i in live then sizes[i] else 0
  {
    if n > 0 {
      LiveBytesUpdate(sizes, live, i, size, n - 1);
    }
  }

  /** The driver's arrays hold what the trace says: for every id the size and the address last given. */
  lemma {:induction false} RecordedArrays(u: Stats, ops: seq<Op>, ps: seq<int>, i: nat)
    requires |ops| <= |ps| && |u.blocks| == |u.sizes| && Fits(ops, |u.sizes|) && i < |u.sizes|
    ensures Recorded(u, ops, ps).sizes[i] == SizeOf(u.sizes, ops, i)
    ensures Recorded(u, ops, ps).blocks[i] == AddressOf(u.blocks, ops, ps, i)
    decreases |ops|
  {
    if ops != [] {
      RecordedArrays(u, ops[..|ops| - 1], ps, i);
    }
  }

  /** The bytes that are live after a trace, by the trace alone: of the first n ids, those that are
      live count with the size last given to them. */
  function TraceBytes(sizes: seq<int>, ops: seq<Op>, n: nat): int
    requires n <= |sizes|
  {
    if n == 0 then 0
    else TraceBytes(sizes, ops, n - 1) + if n - 1 in Live(ops) then SizeOf(sizes, ops, n - 1) else 0
  }

  /** The bytes that are live after the first k operations. */
  function LiveAt(sizes: seq<int>, ops: seq<Op>, k: nat): int
    requires k <= |ops|
  {
    TraceBytes(sizes, ops[..k], |sizes|)
  }

  lemma {:induction false} NothingTraced(sizes: seq<int>, n: nat)
    requires n <= |sizes|
    ensures TraceBytes(sizes, [], n) == 0
  {
    if n > 0 {
      NothingTraced(sizes, n - 1);
    }
  }

  lemma {:induction false} RecordedBytes(u: Stats, ops: seq<Op>, ps: seq<int>, n: nat)
    requires |ops| <= |ps| && |u.blocks| == |u.sizes| && Fits(ops, |u.sizes|) && n <= |u.sizes|
    ensures LiveBytes(Recorded(u, ops, ps).sizes, Live(ops), n) == TraceBytes(u.sizes, ops, n)
  {
    if n > 0 {
      RecordedBytes(u, ops, ps, n - 1);
      RecordedArrays(u, ops, ps, n - 1);
    }
    hide Recorded, Live, SizeOf;
  }

  lemma LiveAtPrefix(sizes: seq<int>, ops: seq<Op>, k: nat)
    requires k < |ops|
    ensures LiveAt(sizes, ops[..|ops| - 1], k) == LiveAt(sizes, ops, k)
  {
    assert ops[..|ops| - 1][..k] == ops[..k];
  }

  ghost predicate Empty(u: Stats) {
    |u.blocks| == |u.sizes| && u.total == 0 && u.max == 0
  }

  lemma {:induction false} TotalRecorded(u: Stats, ops: seq<Op>, ps: seq<int>)
    requires Empty(u) && |ops| <= |ps| && Fits(ops, |u.sizes|) && WellFormed(ops)
    ensures Recorded(u, ops, ps).total == LiveBytes(Recorded(u, ops, ps).sizes, Live(ops), |u.sizes|)
    decreases |ops|
  {
    if ops == [] {
      NothingLive(u.sizes, |u.sizes|);
    } else {
      var n := |ops| - 1;
      var op := ops[n];
      WellFormedPrefix(ops);
      TotalRecorded(u, ops[..n], ps);
      var v := Recorded(u, ops[..n], ps);
      LiveBytesUpdate(v.sizes, Live(ops[..n]), op.index, if op.Free? then 0 else op.size, |u.sizes|);
    }
  }

  /** On a well-formed trace total_size is the sum of the sizes of the live blocks. */
  lemma TotalIsLive(u: Stats, ops: seq<Op>, ps: seq<int>)
    requires Empty(u) && |ops| <= |ps| && Fits(ops, |u.sizes|) && WellFormed(ops)
    ensures Recorded(u, ops, ps).total == LiveAt(u.sizes, ops, |ops|)
  {
    assert ops[..|ops|] == ops;
    TotalRecorded(u, ops, ps);
    RecordedBytes(u, ops, ps, |u.sizes|);
    hide Recorded, Live, WellFormed, TraceBytes, LiveBytes;
  }

  lemma {:induction false} NothingLive(sizes: seq<int>, n: nat)
    requires n <= |sizes|
    ensures LiveBytes(sizes, {}, n) == 0
  {
    if n > 0 {
      NothingLive(sizes, n - 1);
    }
  }

  /** The start of the trace, or right after a malloc or realloc: where the statistics are updated. */
  predicate Grown(ops: seq<Op>, k: nat)
    requires k <= |ops|
  {
    k == 0 || !ops[k - 1].Free?
  }

  /** Whatever the sizes, max_total_size is the maximum of the live bytes over these prefixes. */
  lemma {:induction false} MaxOverGrowth(u: Stats, ops: seq<Op>, ps: seq<int>) returns (at: nat)
    requires Empty(u) && |ops| <= |ps| && Fits(ops, |u.sizes|) && WellFormed(ops)
    ensures forall k :: 0 <= k <= |ops| && Grown(ops, k) ==> LiveAt(u.sizes, ops, k) <= Recorded(u, ops, ps).max
    ensures at <= |ops| && Grown(ops, at) && LiveAt(u.sizes, ops, at) == Recorded(u, ops, ps).max
    decreases |ops|
  {
    hide LiveAt, WellFormed;
    TotalIsLive(u, ops, ps);
    at := 0;
    if ops != [] {
      var n := |ops| - 1;
      WellFormedPrefix(ops);
      at := MaxOverGrowth(u, ops[..n], ps);
      forall k | 0 <= k <= n
        ensures LiveAt(u.sizes, ops[..n], k) == LiveAt(u.sizes, ops, k) && Grown(ops[..n], k) == Grown(ops, k)
      {
        LiveAtPrefix(u.sizes, ops, k);
      }
      if Recorded(u, ops, ps).max != Recorded(u, ops[..n], ps).max {
        at := |ops|;
      }
    }
  }

  /** m is the maximum of the live bytes over all prefixes. */
  ghost predicate IsPeak(sizes: seq<int>, ops: seq<Op>, m: int) {
    && (forall k :: 0 <= k <= |ops| ==> LiveAt(sizes, ops, k) <= m)
    && (exists k :: 0 <= k <= |ops| && LiveAt(sizes, ops, k) == m)
  }

  /** max_total_size is the maximum over all prefixes if and only if that maximum is reached at the
      start or right after a malloc or realloc. */
  lemma MaxIsPeakIff(u: Stats, ops: seq<Op>, ps: seq<int>)
    requires Empty(u) && |ops| <= |ps| && Fits(ops, |u.sizes|) && WellFormed(ops)
    ensures IsPeak(u.sizes, ops, Recorded(u, ops, ps).max)
       <==> exists k :: 0 <= k <= |ops| && Grown(ops, k) && IsPeak(u.sizes, ops, LiveAt(u.sizes, ops, k))
  {
    hide LiveAt, Recorded, Grown, WellFormed;
    var at := MaxOverGrowth(u, ops, ps);
  }

  /** With sizes that are not negative it is. */
  lemma MaxOverPrefixes(u: Stats, ops: seq<Op>, ps: seq<int>)
    requires Empty(u) && |ops| <= |ps| && Fits(ops, |u.sizes|) && WellFormed(ops)
    requires forall k :: 0 <= k < |ops| ==> !ops[k].Free? ==> ops[k].size >= 0
    ensures IsPeak(u.sizes, ops, Recorded(u, ops, ps).max)
  {
    hide LiveAt, Recorded, Grown, WellFormed;
    var at := MaxOverGrowth(u, ops, ps);
    forall k | 0 <= k <= |ops| ensures LiveAt(u.sizes, ops, k) <= Recorded(u, ops, ps).max {
      BelowMax(u, ops, ps, k);
    }
  }

  lemma {:induction false} BelowMax(u: Stats, ops: seq<Op>, ps: seq<int>, k: nat)
    requires Empty(u) && |ops| <= |ps| && Fits(ops, |u.sizes|) && WellFormed(ops) && k <= |ops|
    requires forall i :: 0 <= i < |ops| ==> !ops[i].Free? ==> ops[i].size >= 0
    ensures LiveAt(u.sizes, ops, k) <= Recorded(u, ops, ps).max
  {
    hide LiveAt, Recorded, WellFormed;
    if Grown(ops, k) {
      var at := MaxOverGrowth(u, ops, ps);
    } else {
      FreeLowers(u, ops, ps, k);
      BelowMax(u, ops, ps, k - 1);
    }
  }

  lemma FreeLowers(u: Stats, ops: seq<Op>, ps: seq<int>, k: nat)
    requires Empty(u) && |ops| <= |ps| && Fits(ops, |u.sizes|) && 0 < k <= |ops| && ops[k - 1].Free?
    requires forall i :: 0 <= i < |ops| ==> !ops[i].Free? ==> ops[i].size >= 0
    ensures LiveAt(u.sizes, ops, k) <= LiveAt(u.sizes, ops, k - 1)
  {
    var some, i := ops[..k - 1], ops[k - 1].index;
    assert ops[..k][..k - 1] == some;
    var sizes := Recorded(u, some, ps).sizes;
    RecordedBytes(u, some, ps, |u.sizes|);
    RecordedBytes(u, ops[..k], ps, |u.sizes|);
    LiveBytesUpdate(sizes, Live(some), i, 0, |u.sizes|);
    if i in Live(some) {
      FreedWasNotNegative(u, some, ps, i);
    }
  }

  lemma {:induction false} FreedWasNotNegative(u: Stats, ops: seq<Op>, ps: seq<int>, i: nat)
    requires Empty(u) && |ops| <= |ps| && Fits(ops, |u.sizes|) && i < |u.sizes| && i in Live(ops)
    requires forall k :: 0 <= k < |ops| ==> !ops[k].Free? ==> ops[k].size >= 0
    ensures Recorded(u, ops, ps).sizes[i] >= 0
    decreases |ops|
  {
    var n := |ops| - 1;
    if ops[n].index != i {
      FreedWasNotNegative(u, ops[..n], ps, i);
    }
  }

  /** A negative size can spoil the maximum: freeing the block raises the total, and free does not
      update the statistics.  Here the peak is reached by the free alone. */
  lemma NegativeSizeSpoilsMax(u: Stats)
    requires Empty(u) && |u.sizes| == 2
    ensures var ops := [Alloc(0, -1), Alloc(1, 1), Free(0)];
            var ps := [8, 8, 8];
      && Fits(ops, 2) && WellFormed(ops) && LiveAt(u.sizes, ops, 3) > Recorded(u, ops, ps).max
      && !IsPeak(u.sizes, ops, Recorded(u, ops, ps).max)
  {
    var a, b, c: Op := Alloc(0, -1), Alloc(1, 1), Free(0);
    var ps := [8, 8, 8];
    var one, two, ops := [a], [a, b], [a, b, c];
    assert one[..0] == [] && two[..1] == one && ops[..0] == [] && ops[..1] == one && ops[..2] == two && ops[..3] == ops;
    assert one[0] == a && two[1] == b && ops[2] == c;
    assert Live(one) == Live(one[..0]) + {0} && Live(two) == Live(two[..1]) + {1};
    assert WellFormed(ops);
    assert Recorded(u, one, ps).max == 0 && Recorded(u, one, ps).total == -1;
    assert Recorded(u, two, ps).max == 0 && Recorded(u, two, ps).total == 0;
    TotalIsLive(u, ops, ps);
  }

  // ------------------------------------------------------------------ packing

  /** The addresses from lo on, n of them. */
  function Cells(lo: int, n: nat): (r: set<int>)
    ensures |r| == n && forall x :: x in r <==> lo <= x < lo + n
  {
    if n == 0 then {} else Cells(lo, n - 1) + {lo + n - 1}
  }

  /** Live blocks lie in [lo, hi) and are pairwise disjoint. */
  ghost predicate Packed(u: Stats, live: set<nat>, lo: int, hi: int)
    requires |u.blocks| == |u.sizes|
  {
    && lo <= hi
    && (forall i :: i in live && i < |u.sizes| ==>
          u.sizes[i] >= 0 && lo <= u.blocks[i] && u.blocks[i] + u.sizes[i] <= hi)
    && (forall i, j :: i in live && j in live && i < j < |u.sizes| ==> Clear(u, i, j))
  }

  predicate Clear(u: Stats, i: nat, j: nat)
    requires |u.blocks| == |u.sizes| && i < |u.sizes| && j < |u.sizes|
  {
    u.blocks[i] + u.sizes[i] <= u.blocks[j] || u.blocks[j] + u.sizes[j] <= u.blocks[i]
  }

  /** The addresses of the live blocks among the first n ids are as many as their bytes. */
  lemma {:induction false} Covered(u: Stats, live: set<nat>, lo: int, hi: int, n: nat) returns (cells: set<int>)
    requires |u.blocks| == |u.sizes| && n <= |u.sizes| && Packed(u, live, lo, hi)
    ensures |cells| == LiveBytes(u.sizes, live, n)
    ensures forall x :: x in cells ==>
      lo <= x < hi && exists i :: i in live && i < n && u.blocks[i] <= x < u.blocks[i] + u.sizes[i]
  {
    cells := {};
    if n > 0 {
      cells := Covered(u, live, lo, hi, n - 1);
      if n - 1 in live {
        var more := Cells(u.blocks[n - 1], u.sizes[n - 1]);
        forall x | x in cells ensures x !in more {
          var i :| i in live && i < n - 1 && u.blocks[i] <= x < u.blocks[i] + u.sizes[i];
          assert Clear(u, i, n - 1);
        }
        assert |cells + more| == |cells| + |more| by { assert cells !! more; Disjoint(cells, more); }
        cells := cells + more;
      }
    }
  }

  lemma Disjoint(a: set<int>, b: set<int>)
    requires a !! b
    ensures |a + b| == |a| + |b|
  {
  }

  lemma {:induction false} SubsetSize(a: set<int>, b: set<int>)
    requires a <= b
    ensures |a| <= |b|
  {
    assert b == a + (b - a);
    Disjoint(a, b - a);
  }

  /** Disjoint blocks fit their interval. */
  lemma PackedFit(u: Stats, live: set<nat>, lo: int, hi: int)
    requires |u.blocks| == |u.sizes| && Packed(u, live, lo, hi)
    ensures LiveBytes(u.sizes, live, |u.sizes|) <= hi - lo
  {
    var cells := Covered(u, live, lo, hi, |u.sizes|);
    SubsetSize(cells, Cells(lo, hi - lo));
  }

  /** An allocator, seen through the addresses it returned and the break after every operation: it
      keeps the live blocks disjoint and inside the heap, and never moves the break down. */
  ghost predicate KeepsHeap(base: int, u: Stats, ops: seq<Op>, ps: seq<int>, brks: seq<int>)
    requires |ops| <= |ps| && |u.blocks| == |u.sizes| && Fits(ops, |u.sizes|) && |brks| == |ops| + 1
  {
    && (forall k :: 0 <= k <= |ops| ==> Packed(Recorded(u, ops[..k], ps), Live(ops[..k]), base, brks[k]))
    && (forall k :: 0 <= k <= |ops| ==> brks[k] <= brks[|ops|])
  }

  /** The high-water mark of any such allocator is at most its final heap size. */
  lemma MaxFitsHeap(base: int, u: Stats, ops: seq<Op>, ps: seq<int>, brks: seq<int>)
    requires Empty(u) && |ops| <= |ps| && Fits(ops, |u.sizes|) && WellFormed(ops) && |brks| == |ops| + 1
    requires KeepsHeap(base, u, ops, ps, brks)
    ensures Recorded(u, ops, ps).max <= brks[|ops|] - base
  {
    var k := MaxOverGrowth(u, ops, ps);
    PackedFit(Recorded(u, ops[..k], ps), Live(ops[..k]), base, brks[k]);
    RecordedBytes(u, ops[..k], ps, |u.sizes|);
  }

  // ------------------------------------------------------------------ mm.c

  /** The statistics, the break, and the history that the driver does not keep. */
  datatype Run = Run(u: Stats, brk: int, ps: seq<int>, brks: seq<int>) | Failed

  /** The address that mm.c returns for an operation and the new break; free returns nothing. */
  function Answer(base: int, brk: int, u: Stats, op: Op): (int, int)
    requires op.index < |u.blocks|
  {
    match op
    case Alloc(_, size) => Malloc(base, brk, SizeT(size))
    case Realloc(i, size) => Mm.Realloc(base, brk, u.blocks[i], SizeT(size))
    case Free(i) => (u.blocks[i], brk)
  }

  /** The operations carried out by mm.c; a NULL from mm_malloc or mm_realloc ends the program. */
  function Carried(base: int, u: Stats, ops: seq<Op>): (r: Run)
    requires |u.blocks| == |u.sizes| && Fits(ops, |u.sizes|)
    ensures r.Run? ==> |r.u.blocks| == |r.u.sizes| == |u.sizes| && |r.ps| == |ops| && |r.brks| == |ops| + 1
  {
    if ops == [] then Run(u, base, [], [base])
    else
      var n := |ops| - 1;
      match Carried(base, u, ops[..n])
      case Failed => Failed
      case Run(v, brk, ps, brks) =>
        var (p, next) := Answer(base, brk, v, ops[n]);
        if !ops[n].Free? && p == NULL then Failed else Run(Record(v, ops[n], p), next, ps + [p], brks + [next])
  }

  lemma {:induction false} RecordedAgree(u: Stats, ops: seq<Op>, ps: seq<int>, qs: seq<int>)
    requires |ops| <= |ps| && |ops| <= |qs| && |u.blocks| == |u.sizes| && Fits(ops, |u.sizes|)
    requires forall k :: 0 <= k < |ops| ==> ps[k] == qs[k]
    ensures Recorded(u, ops, ps) == Recorded(u, ops, qs)
  {
    if ops != [] {
      RecordedAgree(u, ops[..|ops| - 1], ps, qs);
    }
  }

  /** What mm.c did is an instance of what any allocator does. */
  lemma {:induction false} CarriedRecorded(base: int, u: Stats, ops: seq<Op>)
    requires |u.blocks| == |u.sizes| && Fits(ops, |u.sizes|) && Carried(base, u, ops).Run?
    ensures var r := Carried(base, u, ops); r.u == Recorded(u, ops, r.ps)
    decreases |ops|
  {
    if ops != [] {
      var n := |ops| - 1;
      CarriedRecorded(base, u, ops[..n]);
      RecordedAgree(u, ops[..n], Carried(base, u, ops[..n]).ps, Carried(base, u, ops).ps);
    }
  }

  lemma {:induction false} CarriedPrefix(base: int, u: Stats, ops: seq<Op>, k: nat)
    requires |u.blocks| == |u.sizes| && Fits(ops, |u.sizes|) && Carried(base, u, ops).Run? && k <= |ops|
    ensures var r := Carried(base, u, ops);
            var q := Carried(base, u, ops[..k]);
            q.Run? && q.ps == r.ps[..k] && q.brks == r.brks[..k + 1] && q.brk == r.brks[k]
    decreases |ops|
  {
    if k == |ops| {
      assert ops[..k] == ops;
      assert k > 0 ==> Carried(base, u, ops).brks[k] == Carried(base, u, ops).brk;
    } else {
      CarriedPrefix(base, u, ops[..|ops| - 1], k);
      assert ops[..|ops| - 1][..k] == ops[..k];
    }
  }

  /** The requests to which mm.c answers NULL: realloc rounds a small negative size up to zero. */
  predicate AnsweredNull(op: Op) {
    (op.Alloc? && op.size == 0) || (op.Realloc? && -7 <= op.size <= 0)
  }

  lemma NullIff(base: int, brk: int, u: Stats, op: Op)
    requires 0 < base <= brk <= base + MAX_HEAP && op.index < |u.blocks| && !op.Free? && IsInt(op.size)
    ensures Answer(base, brk, u, op).0 == NULL <==> AnsweredNull(op)
    ensures base <= Answer(base, brk, u, op).1 <= base + MAX_HEAP
  {
    assert SizeT(op.size) == if op.size < 0 then op.size + TWO_TO_64 else op.size;
    assert Rounded(SizeT(op.size)) == 0 <==> -7 <= op.size <= 0;
    BreakMovesUp(base, brk, u.blocks[op.index], SizeT(op.size));
    assert Rounded(SizeT(op.size)) < TWO_TO_64;
    hide Rounded, SizeT, AsInt;
  }

  /** eval_mm_util ends the program exactly when the trace holds such a request, however full the heap
      is: the address -1 of a failed request is recorded like any other. */
  lemma {:induction false} FailsIff(base: int, u: Stats, ops: seq<Op>)
    requires base > 0 && |u.blocks| == |u.sizes| && Fits(ops, |u.sizes|)
    ensures Carried(base, u, ops).Failed? <==> exists k :: 0 <= k < |ops| && AnsweredNull(ops[k])
    ensures Carried(base, u, ops).Run? ==> base <= Carried(base, u, ops).brk <= base + MAX_HEAP
    decreases |ops|
  {
    if ops != [] {
      var n := |ops| - 1;
      FailsIff(base, u, ops[..n]);
      assert forall k :: 0 <= k < n ==> ops[..n][k] == ops[k];
      var r := Carried(base, u, ops[..n]);
      if r.Run? && !ops[n].Free? {
        NullIff(base, r.brk, r.u, ops[n]);
      }
      hide AnsweredNull, Answer;
    }
  }

  /** Blocks stay disjoint when one is freed or one is placed at the break. */
  lemma PackedRecord(u: Stats, live: set<nat>, lo: int, hi: int, op: Op, next: int)
    requires |u.blocks| == |u.sizes| && op.index < |u.sizes| && Packed(u, live, lo, hi) && hi <= next
    requires !op.Free? ==> op.size >= 0 && hi + op.size <= next
    ensures Packed(Record(u, op, if op.Free? then 0 else hi),
                   if op.Free? then live - {op.index} else live + {op.index}, lo, next)
  {
    var v := Record(u, op, if op.Free? then 0 else hi);
    assert forall i :: i != op.index && 0 <= i < |u.sizes| ==> v.blocks[i] == u.blocks[i] && v.sizes[i] == u.sizes[i];
    forall i, j | i in live && j in live && i < j < |u.sizes| && i != op.index && j != op.index ensures Clear(v, i, j) {
      assert Clear(u, i, j);
    }
    hide Record;
  }

  /** A request that fits the heap is answered with the break. */
  lemma AnswerFits(base: int, brk: int, u: Stats, op: Op)
    requires 0 < base <= brk && op.index < |u.blocks| && brk + Need(op) <= base + MAX_HEAP
    requires !op.Free? ==> op.size > 0 && IsInt(op.size)
    ensures Answer(base, brk, u, op).1 == brk + Need(op) && (!op.Free? ==> Answer(base, brk, u, op).0 == brk != NULL)
    ensures Need(op) >= 0 && (!op.Free? ==> op.size <= Need(op))
  {
    if !op.Free? {
      Round8Bounds(op.size);
      MallocPositive(base, brk, op.size);
      ReallocPositive(base, brk, u.blocks[op.index], op.size);
    }
    hide Malloc, Mm.Realloc, Round8, SizeT;
  }

  /** mm.c on a trace that fits the heap: the break moves by the rounded sizes. */
  lemma {:induction false} CarriedPacked(base: int, u: Stats, ops: seq<Op>)
    requires base > 0 && |u.blocks| == |u.sizes| && Fits(ops, |u.sizes|)
    requires AllPositive(ops) && Total(ops) <= MAX_HEAP
    ensures var r := Carried(base, u, ops);
            r.Run? && r.brk == base + Total(ops) && base <= r.brk && Packed(r.u, Live(ops), base, r.brk)
    decreases |ops|
  {
    if ops != [] {
      hide Packed, Need, Answer, Record;
      var n := |ops| - 1;
      var op := ops[n];
      assert AllPositive(ops[..n]);
      TotalGrows(ops, n);
      assert Need(op) >= 0 by { NeedNotNegative(op); }
      CarriedPacked(base, u, ops[..n]);
      var r := Carried(base, u, ops[..n]);
      AnswerFits(base, r.brk, r.u, op);
      PackedRecord(r.u, Live(ops[..n]), base, r.brk, op, base + Total(ops));
      RecordFree(r.u, op, Answer(base, r.brk, r.u, op).0);
    }
  }

  lemma NeedNotNegative(op: Op)
    requires !op.Free? ==> op.size > 0
    ensures Need(op) >= 0
  {
    if !op.Free? {
      Round8Bounds(op.size);
    }
  }

  /** free records no address. */
  lemma RecordFree(u: Stats, op: Op, p: int)
    requires op.index < |u.blocks| == |u.sizes|
    ensures op.Free? ==> Record(u, op, p) == Record(u, op, 0)
  {
  }

  lemma MmKeepsHeap(base: int, u: Stats, ops: seq<Op>)
    requires base > 0 && Empty(u) && Fits(ops, |u.sizes|)
    requires AllPositive(ops) && Total(ops) <= MAX_HEAP
    ensures var r := Carried(base, u, ops);
            r.Run? && r.brk == base + Total(ops) && KeepsHeap(base, u, ops, r.ps, r.brks)
  {
    CarriedPacked(base, u, ops);
    var r := Carried(base, u, ops);
    forall k | 0 <= k <= |ops|
      ensures Packed(Recorded(u, ops[..k], r.ps), Live(ops[..k]), base, r.brks[k]) && r.brks[k] <= r.brks[|ops|]
    {
      PrefixPacked(base, u, ops, k);
      PrefixPacked(base, u, ops, |ops|);
      assert ops[..|ops|] == ops;
      if k < |ops| {
        TotalGrows(ops, k);
        if !ops[k].Free? {
          Round8Bounds(ops[k].size);
        }
      }
    }
    hide Packed, Carried, Recorded, Total, Round8;
  }

  lemma PrefixPacked(base: int, u: Stats, ops: seq<Op>, k: nat)
    requires base > 0 && Empty(u) && Fits(ops, |u.sizes|) && k <= |ops|
    requires AllPositive(ops) && Total(ops) <= MAX_HEAP && Carried(base, u, ops).Run?
    ensures var r := Carried(base, u, ops);
            Packed(Recorded(u, ops[..k], r.ps), Live(ops[..k]), base, r.brks[k]) && r.brks[k] == base + Total(ops[..k])
  {
    var some := ops[..k];
    assert AllPositive(some);
    assert Total(some) <= Total(ops) by {
      if k < |ops| {
        TotalGrows(ops, k);
        if !ops[k].Free? {
          Round8Bounds(ops[k].size);
        }
      } else {
        assert some == ops;
      }
    }
    CarriedPacked(base, u, some);
    CarriedPrefix(base, u, ops, k);
    CarriedRecorded(base, u, some);
    RecordedAgree(u, some, Carried(base, u, some).ps, Carried(base, u, ops).ps);
    hide Packed, Carried, Recorded, Total, Live;
  }

  /** On a well-formed trace of positive sizes that fits the heap, mm.c uses the rounded sizes together,
      and the driver's maximum is the maximum of the live bytes and at most the heap. */
  lemma MmUtilization(base: int, u: Stats, ops: seq<Op>)
    requires base > 0 && Empty(u) && Fits(ops, |u.sizes|) && WellFormed(ops)
    requires AllPositive(ops) && Total(ops) <= MAX_HEAP
    ensures var r := Carried(base, u, ops);
      && r.Run? && r.brk - base == Total(ops) && r.u.max <= Total(ops)
      && IsPeak(u.sizes, ops, r.u.max)
  {
    MmKeepsHeap(base, u, ops);
    CarriedRecorded(base, u, ops);
    var r := Carried(base, u, ops);
    MaxFitsHeap(base, u, ops, r.ps, r.brks);
    CarriedPrefix(base, u, ops, |ops|);
    assert ops[..|ops|] == ops;
    MaxOverPrefixes(u, ops, r.ps);
    hide KeepsHeap, Carried, Recorded, Total, LiveAt, WellFormed;
  }

  // ------------------------------------------------------------------ the driver

  /** The double that is returned, as a real number where it is one, or the end of the program. */
  datatype Report = Ratio(value: real) | NotANumber | Infinite | AppError

  /** max_total_size divided by mem_heapsize(); max_total_size is never negative. */
  function Quotient(max: int, heap: int): Report {
    if heap != 0 then Ratio(max as real / heap as real) else if max == 0 then NotANumber else Infinite
  }

  function ReportOf(base: int, r: Run): Report {
    match r case Run(u, brk, _, _) => Quotient(u.max, brk - base) case Failed => AppError
  }

  /** The driver's variables hold what has been carried out so far. */
  ghost predicate Follows(t: Driver.Trace, mem: Memory, u: Stats, k: nat, total: int, max: int)
    reads mem, t.blocks, t.blockSizes
  {
    && t.Valid() && mem.Valid() && |u.blocks| == |u.sizes| == t.blocks.Length && k <= |t.ops|
    && var r := Carried(mem.start, u, t.ops[..k]);
       r.Run? && r.brk == mem.brk && r.u == Stats(t.blocks[..], t.blockSizes[..], total, max)
  }

  /** One operation. */
  method Carry(t: Driver.Trace, mem: Memory, ghost u: Stats, k: nat, total: int, max: int)
      returns (ok: bool, newTotal: int, newMax: int)
    requires k < |t.ops| && Follows(t, mem, u, k, total, max) && Driver.Separate(t, mem)
    modifies mem`brk, t.blocks, t.blockSizes
    ensures mem.Valid()
    ensures ok ==> Follows(t, mem, u, k + 1, newTotal, newMax)
    ensures !ok ==> Carried(mem.start, u, t.ops[..k + 1]).Failed?
  {
    assert t.ops[..k + 1][..k] == t.ops[..k] && t.ops[..k + 1][k] == t.ops[k];
    newTotal, newMax := total, max;
    match t.ops[k] {
      case Alloc(index, size) =>
        var p := MmMalloc(mem, SizeT(size));
        if p == NULL {
          return false, total, max;
        }
        t.blocks[index] := p;
        t.blockSizes[index] := size;
        newTotal := total + size;
        newMax := if newTotal > max then newTotal else max;
      case Realloc(index, newSize) =>
        var oldSize := t.blockSizes[index];
        var oldp := t.blocks[index];
        var newp := MmRealloc(mem, oldp, SizeT(newSize));
        if newp == NULL {
          return false, total, max;
        }
        t.blocks[index] := newp;
        t.blockSizes[index] := newSize;
        newTotal := total + (newSize - oldSize);
        newMax := if newTotal > max then newTotal else max;
      case Free(index) =>
        newTotal := total - t.blockSizes[index];
    }
    ok := true;
    hide Malloc, Mm.Realloc, SizeT;
  }

  /** eval_mm_util */
  method EvalUtil(t: Driver.Trace, mem: Memory) returns (report: Report)
    requires t.Valid() && mem.Valid() && Driver.Separate(t, mem)
    modifies mem`brk, t.blocks, t.blockSizes
    ensures mem.Valid()
    ensures var r := Carried(mem.start, Stats(old(t.blocks[..]), old(t.blockSizes[..]), 0, 0), t.ops);
      && report == ReportOf(mem.start, r)
      && (r.Run? ==> mem.brk == r.brk && t.blocks[..] == r.u.blocks && t.blockSizes[..] == r.u.sizes)
  {
    ghost var u := Stats(t.blocks[..], t.blockSizes[..], 0, 0);
    var max, total := 0, 0;
    mem.ResetBrk();
    var i := 0;
    while i < |t.ops|
      invariant i <= |t.ops| && Follows(t, mem, u, i, total, max)
    {
      var ok;
      ok, total, max := Carry(t, mem, u, i, total, max);
      if !ok {
        if Carried(mem.start, u, t.ops).Run? {
          CarriedPrefix(mem.start, u, t.ops, i + 1);
        }
        return AppError;
      }
      i := i + 1;
    }
    assert t.ops[..i] == t.ops;
    return Quotient(max, mem.brk - mem.start);
  }

  /** The program ends if and only if mm.c answers NULL to some request of the trace. */
  lemma AppErrorIff(base: int, u: Stats, ops: seq<Op>)
    requires base > 0 && |u.blocks| == |u.sizes| && Fits(ops, |u.sizes|)
    ensures ReportOf(base, Carried(base, u, ops)) == AppError <==>
      exists k :: 0 <= k < |ops| &&
        ((ops[k].Alloc? && ops[k].size == 0) || (ops[k].Realloc? && -7 <= ops[k].size <= 0))
  {
    FailsIff(base, u, ops);
    hide Carried;
  }

  lemma QuotientBelowOne(max: int, heap: int)
    requires 0 <= max <= heap && heap > 0
    ensures 0.0 <= max as real / heap as real <= 1.0
  {
    var x := max as real / heap as real;
    assert x * heap as real == max as real;
    assert x < 0.0 ==> x * heap as real < 0.0;
    assert x > 1.0 ==> (x - 1.0) * heap as real > 0.0;
  }

  /** main calls eval_mm_util only on traces that eval_mm_valid has accepted.  Then it does not end the
      program, and it reports the peak of the live bytes divided by the sum of the rounded sizes, a
      number from 0 to 1, or no number at all if nothing is allocated. */
  lemma AcceptedIsMeasured(base: int, start: Driver.State, ops: seq<Op>, u: Stats) returns (peak: int)
    requires Validity.Fresh(base, start) && Fits(ops, |start.blocks|) && WellFormed(ops)
    requires Driver.Replay(base, start, ops).Good?
    requires Empty(u) && |u.sizes| == |start.blocks|
    ensures var r := Carried(base, u, ops); r.Run? && IsPeak(u.sizes, ops, peak)
    ensures 0 <= peak <= Total(ops)
    ensures ReportOf(base, Carried(base, u, ops))
         == if Total(ops) == 0 then NotANumber else Ratio(peak as real / Total(ops) as real)
    ensures Total(ops) != 0 ==> 0.0 <= peak as real / Total(ops) as real <= 1.0
  {
    hide Carried, Total, WellFormed, TraceBytes;
    Validity.Accepted(base, start, ops);
    MmUtilization(base, u, ops);
    var r := Carried(base, u, ops);
    peak := r.u.max;
    assert LiveAt(u.sizes, ops, 0) == 0 by {
      assert ops[..0] == [];
      NothingTraced(u.sizes, |u.sizes|);
    }
    if Total(ops) != 0 {
      QuotientBelowOne(peak, Total(ops));
    }
  }
}
