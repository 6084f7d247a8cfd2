/** mm.c: allocation by moving the break, with the conversions of its integer types. */
module Mm {
  import opened MemLib

  const TWO_TO_31 := 0x8000_0000
  const TWO_TO_32 := 0x1_0000_0000
  const TWO_TO_64 := 0x1_0000_0000_0000_0000

  /** A C int. */
  predicate IsInt(x: int) { -TWO_TO_31 <= x < TWO_TO_31 }

  /** Conversion of an int argument to size_t. */
  function SizeT(x: int): nat { x % TWO_TO_64 }

  /** ((size+7)/8)*8 in size_t arithmetic. */
  function Rounded(n: nat): nat { (n + 7) % TWO_TO_64 / 8 * 8 }

  /** Conversion of a size_t argument to int, as mem_sbrk receives it. */
  function AsInt(n: nat): int {
    var m := n % TWO_TO_32;
    if m >= TWO_TO_31 then m - TWO_TO_32 else m
  }

  /** mm_malloc: the address returned and the new break. */
  function Malloc(base: int, brk: int, size: nat): (int, int) {
    if size == 0 then (NULL, brk) else Sbrk(base, brk, AsInt(Rounded(size)))
  }

  /** mm_realloc: nothing is copied and nothing is reused. */
  function Realloc(base: int, brk: int, ptr: int, size: nat): (int, int) {
    var rounded := Rounded(size);
    if ptr == NULL then Malloc(base, brk, rounded)
    else if rounded == 0 then (NULL, brk)
    else Sbrk(base, brk, AsInt(rounded))
  }

  method MmMalloc(mem: Memory, size: nat) returns (p: int)
    requires mem.Valid()
    modifies mem`brk
    ensures mem.Valid() && (p, mem.brk) == Malloc(mem.start, old(mem.brk), size)
  {
    if size <= 0 {
      return NULL;
    }
    var rounded := Rounded(size);
    p := mem.SbrkBy(AsInt(rounded));
  }

  method MmRealloc(mem: Memory, ptr: int, size: nat) returns (p: int)
    requires mem.Valid()
    modifies mem`brk
    ensures mem.Valid() && (p, mem.brk) == Realloc(mem.start, old(mem.brk), ptr, size)
  {
    var rounded := Rounded(size);
    if ptr == NULL {
      p := MmMalloc(mem, rounded);
    } else if rounded == 0 {
      return NULL;
    } else {
      p := mem.SbrkBy(AsInt(rounded));
    }
  }

  // ------------------------------------------------------------------ what allocation achieves

  /** A size rounded up to a multiple of 8. */
  function Round8(size: int): int { (size + 7) / 8 * 8 }

  lemma Round8Bounds(size: int)
    ensures Round8(size) % 8 == 0 && size <= Round8(size) < size + 8
  {
  }

  /** For a positive int the conversions do nothing, except that a request that rounds up to 2^31
      reaches mem_sbrk as a negative number and fails like any request that is too large. */
  lemma MallocPositive(base: int, brk: int, size: int)
    requires 0 < size && IsInt(size) && base <= brk <= base + MAX_HEAP
    ensures Malloc(base, brk, SizeT(size))
         == if brk + Round8(size) <= base + MAX_HEAP then (brk, brk + Round8(size)) else (FAILED, brk)
  {
    assert SizeT(size) == size;
    assert Rounded(size) == Round8(size) && size <= Round8(size) <= TWO_TO_31;
    assert AsInt(Round8(size)) == if Round8(size) == TWO_TO_31 then -TWO_TO_31 else Round8(size);
  }

  lemma ReallocPositive(base: int, brk: int, ptr: int, size: int)
    requires 0 < size && IsInt(size) && base <= brk <= base + MAX_HEAP
    ensures Realloc(base, brk, ptr, SizeT(size))
         == if brk + Round8(size) <= base + MAX_HEAP then (brk, brk + Round8(size)) else (FAILED, brk)
  {
    MallocPositive(base, brk, size);
    assert SizeT(size) == size;
    assert Rounded(size) == Round8(size) && size <= Round8(size) <= TWO_TO_31;
    assert Rounded(Round8(size)) == Round8(size);
  }

  /** Whatever the size, the break never moves down and never leaves the heap. */
  lemma BreakMovesUp(base: int, brk: int, ptr: int, size: nat)
    requires base <= brk <= base + MAX_HEAP
    ensures brk <= Malloc(base, brk, size).1 <= base + MAX_HEAP
    ensures brk <= Realloc(base, brk, ptr, size).1 <= base + MAX_HEAP
  {
  }
}
