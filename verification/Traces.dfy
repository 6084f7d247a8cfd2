/** The traces that mdriver.c replays. */
module Traces {
  import opened Mm

  /** A trace operation; the sizes are C ints. */
  datatype Op = Alloc(index: nat, size: int) | Realloc(index: nat, size: int) | Free(index: nat)

  /** The operations of a trace fit its arrays, which have one element per id. */
  predicate Fits(ops: seq<Op>, ids: nat) {
    forall i :: 0 <= i < |ops| ==> ops[i].index < ids && (!ops[i].Free? ==> IsInt(ops[i].size))
  }

  /** The ids whose blocks are allocated after the operations. */
  function Live(ops: seq<Op>): set<nat> {
    if ops == [] then {}
    else
      var live := Live(ops[..|ops| - 1]);
      var op := ops[|ops| - 1];
      if op.Free? then live - {op.index} else live + {op.index}
  }

  /** Every id is allocated when it is not live, and reallocated and freed when it is. */
  predicate WellFormed(ops: seq<Op>) {
    forall k :: 0 <= k < |ops| ==> (ops[k].Alloc? <==> ops[k].index !in Live(ops[..k]))
  }

  predicate AllPositive(ops: seq<Op>) {
    forall k :: 0 <= k < |ops| ==> !ops[k].Free? ==> ops[k].size > 0
  }

  /** The heap that the operations take from mm.c, which never reuses a block. */
  function Need(op: Op): int { if op.Free? then 0 else Round8(op.size) }

  function Total(ops: seq<Op>): int {
    if ops == [] then 0 else Total(ops[..|ops| - 1]) + Need(ops[|ops| - 1])
  }

  /** The size last given to id i, or what its array element held before. */
  function SizeOf(sizes: seq<int>, ops: seq<Op>, i: nat): int
    requires i < |sizes|
  {
    if ops == [] then sizes[i]
    else
      var op := ops[|ops| - 1];
      if !op.Free? && op.index == i then op.size else SizeOf(sizes, ops[..|ops| - 1], i)
  }

  /** Live ids are ids of the trace. */
  lemma {:induction false} LiveFits(ops: seq<Op>, ids: nat)
    requires Fits(ops, ids)
    ensures forall i :: i in Live(ops) ==> i < ids
  {
    if ops != [] {
      LiveFits(ops[..|ops| - 1], ids);
    }
  }

  lemma WellFormedPrefix(ops: seq<Op>)
    requires WellFormed(ops) && ops != []
    ensures WellFormed(ops[..|ops| - 1])
    ensures ops[|ops| - 1].Alloc? <==> ops[|ops| - 1].index !in Live(ops[..|ops| - 1])
  {
    var some := ops[..|ops| - 1];
    forall k | 0 <= k < |some| ensures some[k].Alloc? <==> some[k].index !in Live(some[..k]) {
      assert some[..k] == ops[..k] && some[k] == ops[k];
    }
  }

  lemma {:induction false} TotalGrows(ops: seq<Op>, k: nat)
    requires AllPositive(ops) && k < |ops|
    ensures 0 <= Total(ops[..k]) && Total(ops[..k]) + Need(ops[k]) <= Total(ops)
    decreases |ops|
  {
    var n := |ops| - 1;
    var some := ops[..n];
    assert AllPositive(some);
    if k < n {
      TotalGrows(some, k);
      assert some[..k] == ops[..k];
    } else if n > 0 {
      TotalGrows(some, n - 1);
      assert some[..n - 1] == ops[..n - 1];
    }
  }

  /** The address last given to id i, when operation k was given ps[k]. */
  function AddressOf(blocks: seq<int>, ops: seq<Op>, ps: seq<int>, i: nat): int
    requires i < |blocks| && |ops| <= |ps|
  {
    if ops == [] then blocks[i]
    else
      var n := |ops| - 1;
      if !ops[n].Free? && ops[n].index == i then ps[n] else AddressOf(blocks, ops[..n], ps, i)
  }

  /** The address that mm.c has last given to id i: the break moves by the needs of all operations. */
  function BumpOf(base: int, blocks: seq<int>, ops: seq<Op>, i: nat): int
    requires i < |blocks|
  {
    if ops == [] then blocks[i]
    else
      var n := |ops| - 1;
      if !ops[n].Free? && ops[n].index == i then base + Total(ops[..n]) else BumpOf(base, blocks, ops[..n], i)
  }

  // ------------------------------------------------------------------ by positions

  /** Operation k is the last that gives id i a block. */
  predicate LastGives(ops: seq<Op>, k: nat, i: nat) {
    && k < |ops| && ops[k].index == i && !ops[k].Free?
    && forall j :: k < j < |ops| ==> ops[j].index == i ==> ops[j].Free?
  }

  lemma {:induction false} LastGiven(sizes: seq<int>, blocks: seq<int>, ops: seq<Op>, ps: seq<int>, k: nat, i: nat)
    requires i < |sizes| && i < |blocks| && |ops| <= |ps| && LastGives(ops, k, i)
    ensures SizeOf(sizes, ops, i) == ops[k].size && AddressOf(blocks, ops, ps, i) == ps[k]
    decreases |ops|
  {
    var n := |ops| - 1;
    if k < n {
      assert LastGives(ops[..n], k, i);
      LastGiven(sizes, blocks, ops[..n], ps, k, i);
    }
  }

  /** An id is live if and only if the last operation on it is no free. */
  lemma {:induction false} LiveIff(ops: seq<Op>, i: nat)
    ensures i in Live(ops) <==>
      exists k :: 0 <= k < |ops| && ops[k].index == i && !ops[k].Free? && NotAfter(ops, k, i)
    decreases |ops|
  {
    if ops != [] {
      var n := |ops| - 1;
      var some := ops[..n];
      LiveIff(some, i);
      if ops[n].index == i {
        assert NotAfter(ops, n, i);
      } else {
        assert forall k :: 0 <= k < n ==> (NotAfter(ops, k, i) <==> NotAfter(some, k, i)) && ops[k] == some[k];
      }
    }
  }

  /** No operation after k is on id i. */
  predicate NotAfter(ops: seq<Op>, k: int, i: nat) {
    forall j :: 0 <= j < |ops| && k < j ==> ops[j].index != i
  }
}
