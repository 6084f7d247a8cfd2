/** eval_mm_valid of mdriver.c: a trace is replayed against mm.c, every block is checked against the
    range list and stamped with the low byte of its index. */
module MallocDriver {
  import opened MemLib
  import opened Arithmetic
  import opened Mm
  import opened RangeList
  import opened Traces

  /** The state of the driver and the allocator between two operations. */
  datatype State = State(brk: int, bytes: seq<Byte>, blocks: seq<int>, sizes: seq<int>, ranges: seq<Range>)

  /** Go on, return 0, or fail assert(size > 0). */
  datatype Verdict = Good(st: State) | Bad | Abort

  predicate Shape(base: int, st: State) {
    0 < base <= st.brk <= base + MAX_HEAP && |st.bytes| == MAX_HEAP && |st.blocks| == |st.sizes|
  }

  /** index & 0xFF */
  function Stamp(index: nat): Byte { index % 256 }

  predicate Stamped(bytes: seq<Byte>, from: int, value: Byte, size: int) {
    forall i :: from <= i < from + size && 0 <= i < |bytes| ==> bytes[i] == value
  }

  /** The block is recorded, stamped and remembered. */
  function Placed(base: int, st: State, brk: int, index: nat, p: int, size: int, ranges: seq<Range>): State
    requires Shape(base, st) && index < |st.blocks| && size > 0
    requires InHeap(base, brk, p, p + size - 1) && brk <= base + MAX_HEAP
  {
    State(brk, Filled(st.bytes, p - base, Stamp(index), size), st.blocks[index := p], st.sizes[index := size],
          [Range(p, p + size - 1)] + ranges)
  }

  function Step(base: int, st: State, op: Op): (v: Verdict)
    requires Shape(base, st) && op.index < |st.blocks|
    ensures v.Good? ==> Shape(base, v.st) && |v.st.blocks| == |st.blocks|
  {
    match op
    case Alloc(index, size) =>
      var (p, brk) := Malloc(base, st.brk, SizeT(size));
      if p == NULL then Bad
      else if size <= 0 then Abort
      else if !Accepts(base, brk, st.ranges, p, size) then Bad
      else
        BreakMovesUp(base, st.brk, NULL, SizeT(size));
        Good(Placed(base, st, brk, index, p, size, st.ranges))
    case Realloc(index, size) =>
      var (p, brk) := Mm.Realloc(base, st.brk, st.blocks[index], SizeT(size));
      var ranges := WithoutFirst(st.ranges, st.blocks[index]);
      if p == NULL then Bad
      else if size <= 0 then Abort
      else if !Accepts(base, brk, ranges, p, size) then Bad
      else if !Stamped(st.bytes, p - base, Stamp(index), Min(size, st.sizes[index])) then Bad
      else
        BreakMovesUp(base, st.brk, st.blocks[index], SizeT(size));
        Good(Placed(base, st, brk, index, p, size, ranges))
    case Free(index) => Good(st.(ranges := WithoutFirst(st.ranges, st.blocks[index])))
  }

  function Replay(base: int, st: State, ops: seq<Op>): (v: Verdict)
    requires Shape(base, st) && Fits(ops, |st.blocks|)
    ensures v.Good? ==> Shape(base, v.st) && |v.st.blocks| == |st.blocks|
    decreases |ops|
  {
    if ops == [] then Good(st)
    else match Step(base, st, ops[0])
         case Good(next) => Replay(base, next, ops[1..])
         case Bad => Bad
         case Abort => Abort
  }

  /** The driver's arrays: block addresses and sizes by id. */
  class Trace {
    const ops: seq<Op>
    const blocks: array<int>
    const blockSizes: array<int>

    ghost predicate Valid() {
      blocks != blockSizes && blocks.Length == blockSizes.Length && Fits(ops, blocks.Length)
    }

    constructor (ops: seq<Op>, ids: nat)
      requires Fits(ops, ids)
      ensures Valid() && this.ops == ops && fresh(blocks) && fresh(blockSizes)
    {
      this.ops := ops;
      blocks := new int[ids];
      blockSizes := new int[ids];
    }
  }

  ghost function Snapshot(t: Trace, mem: Memory, list: List): State
    reads t.blocks, t.blockSizes, mem, mem.bytes, list
  {
    State(mem.brk, mem.bytes[..], t.blocks[..], t.blockSizes[..], list.Contents())
  }

  /** The driver's arrays are not part of the simulated heap. */
  ghost predicate Separate(t: Trace, mem: Memory) {
    t.blocks as object != mem.bytes as object && t.blockSizes as object != mem.bytes as object
  }

  datatype Outcome = Accepted | Rejected | Aborted

  /** The comparison of the new block with the stamp of the old one (lines 655-661). */
  method Preserved(mem: Memory, p: int, value: Byte, size: int) returns (ok: bool)
    requires mem.Valid() && mem.start <= p && p + size <= mem.start + MAX_HEAP
    ensures ok == Stamped(mem.bytes[..], p - mem.start, value, size)
  {
    var j := 0;
    while j < size
      invariant 0 <= j
      invariant forall i :: p - mem.start <= i < p - mem.start + j && i < p - mem.start + size ==> mem.bytes[i] == value
    {
      if mem.bytes[p - mem.start + j] != value {
        assert mem.bytes[..][p - mem.start + j] != value;
        return false;
      }
      j := j + 1;
    }
    return true;
  }

  /** Record, stamp and remember a block that the allocator has returned. */
  method Place(t: Trace, mem: Memory, index: nat, p: int, size: int)
    requires t.Valid() && mem.Valid() && Separate(t, mem)
    requires index < t.blocks.Length && size > 0 && InHeap(mem.start, mem.brk, p, p + size - 1)
    modifies t.blocks, t.blockSizes, mem.bytes
    ensures mem.bytes[..] == Filled(old(mem.bytes[..]), p - mem.start, Stamp(index), size)
    ensures t.blocks[..] == old(t.blocks[..])[index := p] && t.blockSizes[..] == old(t.blockSizes[..])[index := size]
  {
    mem.Fill(p, index % 256, size);
    t.blocks[index] := p;
    t.blockSizes[index] := size;
  }

  /** The fields that the driver's operations may leave in any state they can reach. */
  ghost predicate Ready(t: Trace, mem: Memory, list: List)
    reads mem, list, list.nodes
  {
    t.Valid() && mem.Valid() && list.Valid() && Separate(t, mem)
  }

  method InterpretAlloc(t: Trace, mem: Memory, list: List, index: nat, size: int) returns (outcome: Outcome)
    requires Ready(t, mem, list) && index < t.blocks.Length && IsInt(size)
    modifies mem, mem.bytes, t.blocks, t.blockSizes, list
    ensures Ready(t, mem, list) && fresh(set n | n in list.nodes && n !in old(list.nodes))
    ensures Matches(outcome, Step(mem.start, old(Snapshot(t, mem, list)), Alloc(index, size)), Snapshot(t, mem, list))
  {
    var p := MmMalloc(mem, SizeT(size));
    if p == NULL {
      return Rejected;
    }
    if size <= 0 {
      return Aborted;
    }
    var ok := list.Add(mem, p, size);
    if !ok {
      return Rejected;
    }
    Place(t, mem, index, p, size);
    return Accepted;
  }

  method InterpretRealloc(t: Trace, mem: Memory, list: List, index: nat, size: int) returns (outcome: Outcome)
    requires Ready(t, mem, list) && index < t.blocks.Length && IsInt(size)
    modifies mem, mem.bytes, t.blocks, t.blockSizes, list, list.nodes
    ensures Ready(t, mem, list) && fresh(set n | n in list.nodes && n !in old(list.nodes))
    ensures Matches(outcome, Step(mem.start, old(Snapshot(t, mem, list)), Op.Realloc(index, size)),
        Snapshot(t, mem, list))
  {
    hide Mm.Realloc, Malloc, WithoutFirst, Stamped, HitsAny, Separate, RangesOf;
    var oldp := t.blocks[index];
    var newp := MmRealloc(mem, oldp, SizeT(size));
    if newp == NULL {
      return Rejected;
    }
    list.Remove(oldp);
    if size <= 0 {
      return Aborted;
    }
    var ok := list.Add(mem, newp, size);
    if !ok {
      return Rejected;
    }
    var oldSize := t.blockSizes[index];
    if size < oldSize {
      oldSize := size;
    }
    ok := Preserved(mem, newp, index % 256, oldSize);
    if !ok {
      return Rejected;
    }
    Place(t, mem, index, newp, size);
    return Accepted;
  }

  /** The outcome is the verdict, and an operation that passed left the state the verdict holds. */
  ghost predicate Matches(outcome: Outcome, v: Verdict, now: State) {
    && (outcome.Accepted? <==> v.Good?) && (outcome.Rejected? <==> v.Bad?) && (outcome.Aborted? <==> v.Abort?)
    && (v.Good? ==> now == v.st)
  }

  /** One operation of the trace. */
  method Interpret(t: Trace, mem: Memory, list: List, op: Op) returns (outcome: Outcome)
    requires Ready(t, mem, list) && op in t.ops
    modifies mem, mem.bytes, t.blocks, t.blockSizes, list, list.nodes
    ensures Ready(t, mem, list) && fresh(set n | n in list.nodes && n !in old(list.nodes))
    ensures Matches(outcome, Step(mem.start, old(Snapshot(t, mem, list)), op), Snapshot(t, mem, list))
  {
    match op {
      case Alloc(index, size) =>
        outcome := InterpretAlloc(t, mem, list, index, size);
      case Realloc(index, size) =>
        outcome := InterpretRealloc(t, mem, list, index, size);
      case Free(index) =>
        list.Remove(t.blocks[index]);
        outcome := Accepted;
    }
  }

  /** eval_mm_valid */
  method EvalValid(t: Trace, mem: Memory, list: List) returns (outcome: Outcome)
    requires Ready(t, mem, list)
    modifies mem, mem.bytes, t.blocks, t.blockSizes, list, list.nodes
    ensures Ready(t, mem, list)
    ensures var start := State(mem.start, old(mem.bytes[..]), old(t.blocks[..]), old(t.blockSizes[..]), []);
            Matches(outcome, Replay(mem.start, start, t.ops), Snapshot(t, mem, list))
  {
    hide Step, Separate, RangesOf;
    mem.ResetBrk();
    list.Clear();
    ghost var start := Snapshot(t, mem, list);
    ghost var all := Replay(mem.start, start, t.ops);
    var i := 0;
    while i < |t.ops|
      invariant 0 <= i <= |t.ops|
      invariant Ready(t, mem, list) && fresh(set n | n in list.nodes)
      invariant Replay(mem.start, Snapshot(t, mem, list), t.ops[i..]) == all
    {
      assert t.ops[i..][0] == t.ops[i] && t.ops[i..][1..] == t.ops[i + 1..];
      outcome := Interpret(t, mem, list, t.ops[i]);
      if outcome != Accepted {
        return;
      }
      i := i + 1;
    }
    return Accepted;
  }
}
