/** One barrier used again and again by the number of threads it is made for. */
module BarrierReuse {
  import opened Wrappers
  import opened BarrierMachine
  import opened BarrierSafety
  import opened BarrierProgress

  predicate JoinsNobody(ops: seq<Op>) {
    forall i :: 0 <= i < |ops| ==> !ops[i].Join?
  }

  /** The callers of barrier 0 join nobody. */
  ghost predicate CallersJoinNobody(p: Programs) {
    forall t: nat :: t in Callers(p, 0) ==> JoinsNobody(p[t])
  }

  /** How often thread t calls barrier_wait altogether. */
  function Calls(p: Programs, t: nat): nat
    requires t < |p|
  {
    Waits(p[t], |p[t]|, 0)
  }

  lemma {:induction false} WaitsGrow(ops: seq<Op>, j: nat, k: nat, b: nat)
    requires j <= k <= |ops|
    ensures Waits(ops, j, b) <= Waits(ops, k, b)
    decreases k
  {
    if j < k {
      WaitsGrow(ops, j, k - 1, b);
    }
  }

  lemma EnteredAtMostCalls(p: Programs, s: State, t: nat)
    requires Shape(p, s) && t < |p|
    ensures Entered(p, s, t, 0) <= Calls(p, t)
    ensures Finished(p, s, t) ==> Entered(p, s, t, 0) == Calls(p, t)
  {
    if At(p, s, t, 0) {
      WaitsGrow(p[t], s.pos[t] + 1, |p[t]|, 0);
    } else {
      WaitsGrow(p[t], s.pos[t], |p[t]|, 0);
    }
  }

  /** The programs call the barrier equally often. */
  ghost predicate SameCalls(p: Programs) {
    forall t: nat, u: nat :: t in Callers(p, 0) && u in Callers(p, 0) ==> Calls(p, t) == Calls(p, u)
  }

  lemma WaitingUnlessFinished(p: Programs, s: State, t: nat)
    requires Shape(p, s) && Stuck(p, s) && |s.bar| == 1 && BarrierInv(p, s, 0) && CallersJoinNobody(p)
    requires t in Callers(p, 0)
    ensures !Finished(p, s, t) ==> Arrived(p, s, t, 0)
  {
    if !Finished(p, s, t) {
      StuckShape(p, s, t);
      assert Current(p, s, t) == p[t][s.pos[t]];
    }
  }

  ghost predicate CallersFinished(p: Programs, s: State)
    requires Shape(p, s)
  {
    forall t: nat :: t in Callers(p, 0) ==> Finished(p, s, t)
  }

  /** In a state in which nobody can move, the callers have finished if and only if all of them
      call the barrier equally often. */
  lemma StuckCallersFinishedIff(p: Programs, s: State)
    requires Shape(p, s) && Stuck(p, s) && |s.bar| == 1 && BarrierInv(p, s, 0) && RoundInv(p, s, 0, Callers(p, 0))
    requires CallersJoinNobody(p) && |Callers(p, 0)| == s.bar[0].initial
    ensures CallersFinished(p, s) <==> SameCalls(p)
  {
    if CallersFinished(p, s) {
      forall t: nat | t in Callers(p, 0) ensures Calls(p, t) == s.bar[0].round {
        EnteredAtMostCalls(p, s, t);
        assert Finished(p, s, t) && !Arrived(p, s, t, 0);
      }
    } else {
      var t: nat :| t in Callers(p, 0) && !Finished(p, s, t);
      WaitingUnlessFinished(p, s, t);
      EnteredAtMostCalls(p, s, t);
      var u := StuckSomeoneMissing(p, s, 0);
      WaitingUnlessFinished(p, s, u);
      EnteredAtMostCalls(p, s, u);
      assert Calls(p, u) < Calls(p, t);
    }
  }

  /** With one barrier made for the number of threads that call it, every schedule that leaves
      nobody able to move has brought all callers to their ends if and only if they call the barrier
      equally often. */
  lemma EndsIffSameCalls(p: Programs, cells: nat, schedule: seq<nat>)
    requires Proper(p, 1, cells) && CallersJoinNobody(p) && |Callers(p, 0)| >= 1
    requires Stuck(p, After(p, [|Callers(p, 0)|], cells, schedule))
    ensures CallersFinished(p, After(p, [|Callers(p, 0)|], cells, schedule)) <==> SameCalls(p)
  {
    var n := |Callers(p, 0)|;
    StartKeeps(p, [n], cells, 0);
    RunKeeps(p, Start(p, [n], cells), schedule, 0);
    StuckCallersFinishedIff(p, After(p, [n], cells, schedule));
  }

  // ------------------------------------------------------------------ spurious wakeups

  /** What the machine leaves out: a waiting thread is woken up although nobody broadcast. */
  function SpuriousWakeup(s: State, t: nat): State
    requires t < |s.stage| && s.stage[t] == Waiting
  {
    Goto(s, t, Relock)
  }

  /** Thread t is blocked at b and nobody is inside barrier_wait on b. */
  predicate Blocked(p: Programs, s: State, t: nat, b: nat)
    requires Shape(p, s) && b < |s.bar|
  {
    At(p, s, t, b) && s.stage[t] == Waiting && s.bar[b].owner == None
  }

  /** A woken thread takes the mutex, gives it back and returns; no other thread is concerned. */
  lemma WokenReturns(p: Programs, s: State, t: nat, b: nat)
    requires Shape(p, s) && b < |s.bar| && Blocked(p, s, t, b)
    ensures Shape(p, SpuriousWakeup(s, t))
    ensures var n := Run(p, SpuriousWakeup(s, t), [t, t]);
      && Returned(p, n, t, b) == Entered(p, s, t, b)
      && forall u: nat :: u < |p| && u != t ==> Entered(p, n, u, b) == Entered(p, s, u, b)
  {
    hide Run, Step, Entered, Returned;
    WokenSteps(p, s, t, b);
    var w := SpuriousWakeup(s, t);
    var y := Step(p, Step(p, w, t), t);
    RunTwice(p, w, t);
    hide Shape, SpuriousWakeup;
    assert Returned(p, y, t, b) == Entered(p, s, t, b) by { BackAgain(p, s, t, b, y); }
    forall u: nat | u < |p| && u != t ensures Entered(p, y, u, b) == Entered(p, s, u, b) {
      EnteredAlike(p, s, y, u, b);
    }
  }

  lemma BackAgain(p: Programs, s: State, t: nat, b: nat, y: State)
    requires Shape(p, s) && Shape(p, y) && At(p, s, t, b) && s.stage[t] == Waiting && y.pos[t] == s.pos[t] + 1
    ensures Returned(p, y, t, b) == Entered(p, s, t, b)
  {
    OneMoreWait(p[t], s.pos[t], b);
    hide Waits;
  }

  lemma EnteredAlike(p: Programs, s: State, y: State, u: nat, b: nat)
    requires Shape(p, s) && Shape(p, y) && u < |p| && y.pos[u] == s.pos[u] && y.stage[u] == s.stage[u]
    ensures Entered(p, y, u, b) == Entered(p, s, u, b)
  {
  }

  lemma OneMoreWait(ops: seq<Op>, k: nat, b: nat)
    requires k < |ops| && ops[k] == Wait(b)
    ensures Waits(ops, k + 1, b) == Waits(ops, k, b) + 1
  {
  }

  lemma WokenSteps(p: Programs, s: State, t: nat, b: nat)
    requires Shape(p, s) && b < |s.bar| && Blocked(p, s, t, b)
    ensures Shape(p, SpuriousWakeup(s, t)) && Shape(p, Step(p, SpuriousWakeup(s, t), t))
    ensures var y := Step(p, Step(p, SpuriousWakeup(s, t), t), t);
      && Shape(p, y) && |y.pos| == |y.stage| == |p| && y.pos == s.pos[t := s.pos[t] + 1]
      && forall u: nat :: u < |p| && u != t ==> y.stage[u] == s.stage[u]
  {
    var w := SpuriousWakeup(s, t);
    var x := Goto(SetOwner(w, b, Some(t)), t, Unlock);
    assert Current(p, w, t) == Wait(b) && CanStep(p, w, t);
    assert Step(p, w, t) == x;
    ShapeStep(p, w, t);
    assert Current(p, x, t) == Wait(b) && CanStep(p, x, t);
    ShapeStep(p, x, t);
  }

  lemma RunTwice(p: Programs, s: State, t: nat)
    requires Shape(p, s)
    ensures Shape(p, Step(p, s, t)) && Run(p, s, [t, t]) == Step(p, Step(p, s, t), t)
  {
    ShapeStep(p, s, t);
    assert [t, t][1..] == [t] && [t][1..] == [];
    assert Run(p, s, [t, t]) == Run(p, Step(p, s, t), [t]);
  }

  /** A thread blocked at b has entered once more than some caller that has not arrived. */
  lemma SomebodyMissing(p: Programs, s: State, t: nat, b: nat) returns (u: nat)
    requires Shape(p, s) && b < |s.bar| && Blocked(p, s, t, b)
    requires BarrierInv(p, s, b) && RoundInv(p, s, b, Callers(p, b)) && s.bar[b].initial == |Callers(p, b)|
    ensures u in Callers(p, b) && u != t && Entered(p, s, u, b) < Entered(p, s, t, b)
  {
    var arrived, callers := ArrivedSet(p, s, b), Callers(p, b);
    ArrivedAreCallers(p, s, b);
    Bigger(callers, arrived);
    u :| u in callers && u !in arrived;
    assert Arrived(p, s, t, b) && !Arrived(p, s, u, b);
    hide CountInv, MutexInv, Entered;
  }

  /** barrier_wait waits under an if: whatever the programs, the number of callers and the schedule,
      one spurious wakeup of a blocked thread lets it return before some caller has entered. */
  lemma SpuriousWakeupBreaksBarrier(p: Programs, sizes: seq<int>, cells: nat, schedule: seq<nat>, b: nat, t: nat)
      returns (u: nat)
    requires Proper(p, |sizes|, cells) && b < |sizes| && sizes[b] == |Callers(p, b)| >= 1
    requires Blocked(p, After(p, sizes, cells, schedule), t, b)
    ensures var s := After(p, sizes, cells, schedule);
      && Shape(p, SpuriousWakeup(s, t)) && u in Callers(p, b)
      && var n := Run(p, SpuriousWakeup(s, t), [t, t]);
         Returned(p, n, t, b) > Entered(p, n, u, b)
  {
    StartKeeps(p, sizes, cells, b);
    RunKeeps(p, Start(p, sizes, cells), schedule, b);
    var s := After(p, sizes, cells, schedule);
    u := SomebodyMissing(p, s, t, b);
    WokenReturns(p, s, t, b);
    hide BarrierInv, RoundInv, Entered, Returned, Run;
  }

  /** A thread waits only at a barrier that is made for more than one. */
  lemma WaitingMeansTwo(p: Programs, s: State, t: nat, b: nat)
    requires Shape(p, s) && b < |s.bar| && BarrierInv(p, s, b) && At(p, s, t, b) && s.stage[t] == Waiting
    ensures s.bar[b].initial >= 2
  {
    var arrived := ArrivedSet(p, s, b);
    assert t in arrived;
    Bigger({t}, arrived);
    if |arrived| == s.bar[b].initial {
      var h := s.bar[b].owner.value;
      assert Inside(p, s, h, b);
      assert h in arrived;
      Bigger({t, h}, arrived);
    }
  }

  /** So at a barrier made for one thread nobody can be woken up spuriously. */
  lemma NobodyWaitsForOne(p: Programs, sizes: seq<int>, cells: nat, schedule: seq<nat>, b: nat, t: nat)
    requires Proper(p, |sizes|, cells) && b < |sizes| && sizes[b] == 1
    ensures var s := After(p, sizes, cells, schedule);
            Shape(p, s) && !(At(p, s, t, b) && s.stage[t] == Waiting)
  {
    hide BarrierInv;
    StartKeeps(p, sizes, cells, b);
    RunKeeps(p, Start(p, sizes, cells), schedule, b);
    var s := After(p, sizes, cells, schedule);
    if At(p, s, t, b) && s.stage[t] == Waiting {
      WaitingMeansTwo(p, s, t, b);
    }
  }

  /** n threads that call one barrier once. */
  function Once(n: nat): Programs { seq(n, _ => [Wait(0)]) }

  lemma OnceCallers(n: nat)
    ensures Proper(Once(n), 1, 0) && |Callers(Once(n), 0)| == n
  {
    var all := Callers(Once(n), 0);
    assert forall t: nat :: t < n ==> Once(n)[t][0] == Wait(0);
    assert forall t: nat :: t in all <==> t < n;
    assert all == Below(n);
  }

  function Below(n: nat): (r: set<nat>)
    ensures |r| == n && forall t: nat :: t in r <==> t < n
  {
    if n == 0 then {} else Below(n - 1) + {n - 1}
  }

  /** The first of at least two callers is soon blocked. */
  lemma FirstCallerBlocked(n: nat)
    requires n >= 2
    ensures Proper(Once(n), 1, 0) && Blocked(Once(n), After(Once(n), [n], 0, [0, 0, 0]), 0, 0)
  {
    OnceCallers(n);
    var p := Once(n);
    var s := Start(p, [n], 0);
    assert p[0][0] == Wait(0);
    var x := Goto(SetOwner(s, 0, Some(0)), 0, Decrement);
    var y := Goto(SetCount(x, 0, n - 1), 0, Test);
    var z := Goto(SetOwner(y, 0, None), 0, Waiting);
    assert Step(p, s, 0) == x && Step(p, x, 0) == y && Step(p, y, 0) == z;
    ShapeStep(p, s, 0);
    ShapeStep(p, x, 0);
    ShapeStep(p, y, 0);
    hide Step;
    assert [0, 0, 0][1..] == [0, 0] && [0, 0][1..] == [0] && [0][1..] == [];
    assert Run(p, s, [0, 0, 0]) == Run(p, x, [0, 0]) == Run(p, y, [0]) == Run(p, z, []) == z;
  }

  /** Woken up spuriously in state s, thread t returns from barrier 0 before thread u has entered. */
  ghost predicate Harmed(p: Programs, s: State, t: nat, u: nat)
    requires Shape(p, s) && |s.bar| == 1
  {
    && Blocked(p, s, t, 0) && Shape(p, SpuriousWakeup(s, t)) && u < |p|
    && var n := Run(p, SpuriousWakeup(s, t), [t, t]);
       Returned(p, n, t, 0) > Entered(p, n, u, 0)
  }

  /** So a spurious wakeup can harm n threads that share a barrier made for them if and only if there
      are at least two. */
  lemma CanBeHarmedIff(n: nat)
    requires n >= 1
    ensures Proper(Once(n), 1, 0)
    ensures (exists schedule, t: nat, u: nat :: Harmed(Once(n), After(Once(n), [n], 0, schedule), t, u)) <==> n >= 2
  {
    hide Once, Blocked, Callers;
    OnceCallers(n);
    if n >= 2 {
      FirstCallerBlocked(n);
      var u := SpuriousWakeupBreaksBarrier(Once(n), [n], 0, [0, 0, 0], 0, 0);
      assert Harmed(Once(n), After(Once(n), [n], 0, [0, 0, 0]), 0, u);
    } else {
      forall schedule, t: nat ensures !Blocked(Once(n), After(Once(n), [n], 0, schedule), t, 0) {
        NobodyBlockedAtOne(n, schedule, t);
      }
    }
  }

  lemma NobodyBlockedAtOne(n: nat, schedule: seq<nat>, t: nat)
    requires n == 1 && Proper(Once(n), 1, 0)
    ensures !Blocked(Once(n), After(Once(n), [n], 0, schedule), t, 0)
  {
    NobodyWaitsForOne(Once(n), [n], 0, schedule, 0, t);
  }
}
