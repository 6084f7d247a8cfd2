/** memlib.c: the simulated heap and its break pointer.  Addresses are integers, NULL is 0. */
module MemLib {
  const MAX_HEAP := 20 * 0x10_0000

  const NULL := 0

  /** What mem_sbrk returns when it fails: (void *)-1. */
  const FAILED := -1

  type Byte = b: int | 0 <= b < 256

  /** mem_sbrk(incr) with the break at brk: the address returned and the new break. */
  function Sbrk(base: int, brk: int, incr: int): (int, int) {
    if incr < 0 || brk + incr > base + MAX_HEAP then (FAILED, brk) else (brk, brk + incr)
  }

  class Memory {
    const start: int
    const bytes: array<Byte>
    var brk: int

    ghost predicate Valid()
      reads this
    {
      0 < start <= brk <= start + MAX_HEAP && bytes.Length == MAX_HEAP
    }

    /** mem_init: malloc has returned an address; what the storage holds is not known. */
    constructor (address: int)
      requires address > 0
      ensures Valid() && start == brk == address && fresh(bytes)
    {
      start := address;
      bytes := new Byte[MAX_HEAP];
      brk := address;
    }

    method ResetBrk()
      requires Valid()
      modifies this`brk
      ensures Valid() && brk == start
    {
      brk := start;
    }

    method SbrkBy(incr: int) returns (p: int)
      requires Valid()
      modifies this`brk
      ensures Valid() && (p, brk) == Sbrk(start, old(brk), incr)
    {
      var oldBrk := brk;
      if incr < 0 || brk + incr > start + MAX_HEAP {
        return FAILED;
      }
      brk := brk + incr;
      return oldBrk;
    }

    /** memset(p, value, size) on a part of the heap. */
    method Fill(p: int, value: Byte, size: nat)
      requires Valid() && start <= p && p + size <= start + MAX_HEAP
      modifies bytes
      ensures bytes[..] == Filled(old(bytes[..]), p - start, value, size)
    {
      var i := 0;
      while i < size
        invariant 0 <= i <= size
        invariant bytes[..] == Filled(old(bytes[..]), p - start, value, i)
      {
        bytes[p - start + i] := value;
        i := i + 1;
      }
    }
  }

  /** The bytes after memset at offset `from`. */
  function Filled(bytes: seq<Byte>, from: int, value: Byte, size: nat): (r: seq<Byte>)
    requires 0 <= from && from + size <= |bytes|
    ensures |r| == |bytes|
    ensures forall i :: 0 <= i < |r| ==> r[i] == if from <= i < from + size then value else bytes[i]
  {
    bytes[..from] + seq(size, _ => value) + bytes[from + size..]
  }
}
