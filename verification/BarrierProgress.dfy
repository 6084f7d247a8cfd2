/** No schedule of barrier programs is endless, and a state in which nobody can move is described
    exactly: every thread has finished, waits at a barrier, or joins a thread that has not finished. */
module BarrierProgress {
  import opened Wrappers
  import opened BarrierMachine
  import opened BarrierSafety

  // ------------------------------------------------------------------ termination

  function Done(g: Stage): nat {
    match g
    case Entry => 0
    case Decrement => 1
    case Test => 2
    case Waiting => 3
    case Broadcast => 3
    case Reset => 4
    case Relock => 5
    case Unlock => 6
  }

  /** An upper bound for the steps thread t still makes. */
  function Left(p: Programs, s: State, t: nat): int
    requires Shape(p, s) && t < |p|
  {
    10 * (|p[t]| - s.pos[t]) - Done(s.stage[t])
  }

  function TotalLeft(p: Programs, s: State, k: nat): int
    requires Shape(p, s) && k <= |p|
  {
    if k == 0 then 0 else TotalLeft(p, s, k - 1) + Left(p, s, k - 1)
  }

  lemma LeftDrops(p: Programs, s: State, t: nat, u: nat)
    requires Shape(p, s) && CanStep(p, s, t) && u < |p|
    ensures Shape(p, Step(p, s, t))
    ensures Left(p, Step(p, s, t), u) <= Left(p, s, u) - (if u == t then 1 else 0)
  {
    ShapeStep(p, s, t);
  }

  lemma {:induction false} TotalLeftDrops(p: Programs, s: State, t: nat, k: nat)
    requires Shape(p, s) && CanStep(p, s, t) && k <= |p|
    ensures Shape(p, Step(p, s, t))
    ensures TotalLeft(p, Step(p, s, t), k) <= TotalLeft(p, s, k) - (if t < k then 1 else 0)
  {
    ShapeStep(p, s, t);
    if k > 0 {
      TotalLeftDrops(p, s, t, k - 1);
      LeftDrops(p, s, t, k - 1);
    }
  }

  lemma {:induction false} TotalLeftNonNegative(p: Programs, s: State, k: nat)
    requires Shape(p, s) && k <= |p|
    ensures TotalLeft(p, s, k) >= 0
  {
    if k > 0 {
      TotalLeftNonNegative(p, s, k - 1);
    }
  }

  /** Each scheduled thread can move when its turn comes. */
  predicate AllMove(p: Programs, s: State, schedule: seq<nat>)
    requires Shape(p, s)
    decreases |schedule|
  {
    schedule == [] || (CanStep(p, s, schedule[0])
                       && (ShapeStep(p, s, schedule[0]); AllMove(p, Step(p, s, schedule[0]), schedule[1..])))
  }

  /** Threads that move make at most ten steps per statement of their programs, whatever the
      schedule: there is no endless run. */
  lemma {:induction false} RunsAreFinite(p: Programs, s: State, schedule: seq<nat>)
    requires Shape(p, s) && AllMove(p, s, schedule)
    ensures |schedule| <= TotalLeft(p, s, |p|)
    decreases |schedule|
  {
    if schedule == [] {
      TotalLeftNonNegative(p, s, |p|);
    } else {
      TotalLeftDrops(p, s, schedule[0], |p|);
      RunsAreFinite(p, Step(p, s, schedule[0]), schedule[1..]);
    }
  }

  // ------------------------------------------------------------------ stuck states

  ghost predicate Stuck(p: Programs, s: State)
    requires Shape(p, s)
  {
    forall t: nat :: !CanStep(p, s, t)
  }

  ghost predicate AllFinished(p: Programs, s: State)
    requires Shape(p, s)
  {
    forall t: nat :: t < |p| ==> Finished(p, s, t)
  }

  lemma StuckMutexFree(p: Programs, s: State, b: nat)
    requires Shape(p, s) && Stuck(p, s) && b < |s.bar| && MutexInv(p, s, b)
    ensures s.bar[b].owner == None
  {
    forall t: nat ensures s.bar[b].owner != Some(t) {
      assert !CanStep(p, s, t);
    }
  }

  /** In a stuck state a thread that has not finished waits at a barrier or for another thread. */
  lemma StuckShape(p: Programs, s: State, t: nat)
    requires Shape(p, s) && Stuck(p, s) && (forall b: nat :: b < |s.bar| ==> MutexInv(p, s, b))
    requires t < |p| && !Finished(p, s, t)
    ensures (Current(p, s, t).Wait? && s.stage[t] == Waiting)
         || (Current(p, s, t).Join? && !Finished(p, s, Current(p, s, t).u))
  {
    assert !CanStep(p, s, t);
    if Current(p, s, t).Wait? {
      StuckMutexFree(p, s, Current(p, s, t).b);
    }
  }

  /** In a stuck state a barrier has fewer waiting threads than it needs. */
  lemma StuckBarrierIncomplete(p: Programs, s: State, b: nat)
    requires Shape(p, s) && Stuck(p, s) && b < |s.bar| && BarrierInv(p, s, b)
    ensures |ArrivedSet(p, s, b)| < s.bar[b].initial
  {
    StuckMutexFree(p, s, b);
  }

  /** If as many threads as the barrier needs have it in their programs, some caller is not waiting
      at it in a stuck state. */
  lemma StuckSomeoneMissing(p: Programs, s: State, b: nat) returns (u: nat)
    requires Shape(p, s) && Stuck(p, s) && b < |s.bar| && BarrierInv(p, s, b) && |Callers(p, b)| == s.bar[b].initial
    ensures u in Callers(p, b) && !Arrived(p, s, u, b)
  {
    StuckBarrierIncomplete(p, s, b);
    ArrivedAreCallers(p, s, b);
    assert ArrivedSet(p, s, b) != Callers(p, b);
    u :| u in Callers(p, b) && u !in ArrivedSet(p, s, b);
  }
}
