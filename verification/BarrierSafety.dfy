/** What one barrier keeps, whatever the programs and the number of callers: its count is the
    number of threads still missing in the current round. */
module BarrierSafety {
  import opened Wrappers
  import opened BarrierMachine

  /** Between locking the mutex and giving it up. */
  predicate Locking(g: Stage) {
    g == Decrement || g == Test || g == Broadcast || g == Reset || g == Unlock
  }

  /** Counted in the current round and not yet released from it. */
  predicate ArrivedStage(g: Stage) {
    g == Test || g == Waiting || g == Broadcast
  }

  predicate Arrived(p: Programs, s: State, t: nat, b: nat)
    requires Shape(p, s)
  {
    At(p, s, t, b) && ArrivedStage(s.stage[t])
  }

  function ArrivedSet(p: Programs, s: State, b: nat): set<nat>
    requires Shape(p, s)
  {
    set t: nat | t < |p| && Arrived(p, s, t, b)
  }

  /** Thread t is inside barrier b's critical section. */
  predicate Inside(p: Programs, s: State, t: nat, b: nat)
    requires Shape(p, s)
  {
    At(p, s, t, b) && Locking(s.stage[t])
  }

  /** The holder of b's mutex is in stage g. */
  predicate HolderIn(s: State, b: nat, g: Stage)
    requires b < |s.bar|
  {
    s.bar[b].owner.Some? && s.bar[b].owner.value < |s.stage| && s.stage[s.bar[b].owner.value] == g
  }

  ghost predicate MutexInv(p: Programs, s: State, b: nat)
    requires Shape(p, s) && b < |s.bar|
  {
    forall t: nat :: s.bar[b].owner == Some(t) <==> Inside(p, s, t, b)
  }

  ghost predicate CountInv(p: Programs, s: State, b: nat)
    requires Shape(p, s) && b < |s.bar|
  {
    var k := |ArrivedSet(p, s, b)|;
    && s.bar[b].initial >= 1
    && s.bar[b].count == (if HolderIn(s, b, Reset) then 0 else s.bar[b].initial - k)
    && (HolderIn(s, b, Reset) ==> k == 0)
    && (HolderIn(s, b, Broadcast) ==> k == s.bar[b].initial)
    && k <= s.bar[b].initial
    && (k == s.bar[b].initial ==> HolderIn(s, b, Test) || HolderIn(s, b, Broadcast))
  }

  ghost predicate BarrierInv(p: Programs, s: State, b: nat)
    requires Shape(p, s) && b < |s.bar|
  {
    MutexInv(p, s, b) && CountInv(p, s, b)
  }

  /** A step that does not concern b. */
  lemma Elsewhere(p: Programs, s: State, t: nat, b: nat)
    requires Shape(p, s) && b < |s.bar| && CanStep(p, s, t) && Current(p, s, t) != Wait(b)
    ensures var n := Step(p, s, t);
            && Shape(p, n) && |n.bar| == |s.bar| && n.bar[b] == s.bar[b]
            && (forall u: nat :: u != t && At(p, s, u, b) ==> n.stage[u] == s.stage[u])
            && (forall u: nat :: u != t ==> At(p, n, u, b) == At(p, s, u, b))
            && (At(p, n, t, b) ==> n.stage[t] == Entry)
            && !At(p, s, t, b)
  {
    ShapeStep(p, s, t);
  }

  lemma ElsewhereKeeps(p: Programs, s: State, t: nat, b: nat)
    requires Shape(p, s) && b < |s.bar| && CanStep(p, s, t) && Current(p, s, t) != Wait(b)
    requires BarrierInv(p, s, b)
    ensures Shape(p, Step(p, s, t)) && b < |Step(p, s, t).bar| && BarrierInv(p, Step(p, s, t), b)
    ensures ArrivedSet(p, Step(p, s, t), b) == ArrivedSet(p, s, b)
  {
    Elsewhere(p, s, t, b);
    var n := Step(p, s, t);
    hide Step, CanStep;
    forall u: nat ensures Arrived(p, n, u, b) == Arrived(p, s, u, b) && Inside(p, n, u, b) == Inside(p, s, u, b) {
    }
    assert ArrivedSet(p, n, b) == ArrivedSet(p, s, b);
  }

  /** A step of barrier_wait on b other than the broadcast moves only its own thread. */
  lemma Here(p: Programs, s: State, t: nat, b: nat)
    requires Shape(p, s) && b < |s.bar| && CanStep(p, s, t) && Current(p, s, t) == Wait(b) && s.stage[t] != Broadcast
    ensures var n := Step(p, s, t);
            && Shape(p, n) && |n.bar| == |s.bar|
            && (forall u: nat :: u != t && At(p, s, u, b) ==> n.stage[u] == s.stage[u])
            && (forall u: nat :: u != t ==> At(p, n, u, b) == At(p, s, u, b))
  {
    ShapeStep(p, s, t);
  }

  lemma HereArrived(p: Programs, s: State, t: nat, b: nat)
    requires Shape(p, s) && b < |s.bar| && CanStep(p, s, t) && Current(p, s, t) == Wait(b) && s.stage[t] != Broadcast
    ensures Shape(p, Step(p, s, t))
    ensures ArrivedSet(p, Step(p, s, t), b) == ArrivedSet(p, s, b) + (if s.stage[t] == Decrement then {t} else {})
    ensures s.stage[t] == Decrement ==> |ArrivedSet(p, Step(p, s, t), b)| == |ArrivedSet(p, s, b)| + 1
  {
    Here(p, s, t, b);
    var n := Step(p, s, t);
    assert Arrived(p, n, t, b) == (Arrived(p, s, t, b) || s.stage[t] == Decrement);
    hide Step, CanStep;
    forall u: nat | u != t ensures Arrived(p, n, u, b) == Arrived(p, s, u, b) {
    }
    assert ArrivedSet(p, n, b) == ArrivedSet(p, s, b) + (if s.stage[t] == Decrement then {t} else {});
  }

  lemma HereMutex(p: Programs, s: State, t: nat, b: nat)
    requires Shape(p, s) && b < |s.bar| && CanStep(p, s, t) && Current(p, s, t) == Wait(b) && s.stage[t] != Broadcast
    requires MutexInv(p, s, b)
    ensures Shape(p, Step(p, s, t)) && b < |Step(p, s, t).bar| && MutexInv(p, Step(p, s, t), b)
  {
    Here(p, s, t, b);
    var n := Step(p, s, t);
    assert Inside(p, s, t, b) == Locking(s.stage[t]);
    forall u: nat ensures n.bar[b].owner == Some(u) <==> Inside(p, n, u, b) {
      assert s.bar[b].owner == Some(u) <==> Inside(p, s, u, b);
      assert u != t ==> Inside(p, n, u, b) == Inside(p, s, u, b);
    }
  }

  lemma HolderOf(p: Programs, s: State, t: nat, b: nat)
    requires Shape(p, s) && b < |s.bar| && At(p, s, t, b) && MutexInv(p, s, b)
    ensures s.bar[b].owner == Some(t) <==> Locking(s.stage[t])
  {
    assert Inside(p, s, t, b) == Locking(s.stage[t]);
  }

  lemma Member(p: Programs, s: State, t: nat, b: nat)
    requires Shape(p, s) && At(p, s, t, b)
    ensures t in ArrivedSet(p, s, b) <==> ArrivedStage(s.stage[t])
  {
  }

  lemma HereKeeps(p: Programs, s: State, t: nat, b: nat)
    requires Shape(p, s) && b < |s.bar| && CanStep(p, s, t) && Current(p, s, t) == Wait(b) && s.stage[t] != Broadcast
    requires BarrierInv(p, s, b)
    ensures Shape(p, Step(p, s, t)) && b < |Step(p, s, t).bar| && BarrierInv(p, Step(p, s, t), b)
  {
    hide ArrivedSet, MutexInv;
    HereMutex(p, s, t, b);
    HereArrived(p, s, t, b);
    assert s.bar[b].owner == Some(t) <==> Locking(s.stage[t]) by { HolderOf(p, s, t, b); }
    assert t in ArrivedSet(p, s, b) <==> ArrivedStage(s.stage[t]) by { Member(p, s, t, b); }
  }

  /** The broadcast releases everybody and starts the next round. */
  lemma BroadcastReleases(p: Programs, s: State, t: nat, b: nat)
    requires Shape(p, s) && b < |s.bar| && CanStep(p, s, t) && Current(p, s, t) == Wait(b) && s.stage[t] == Broadcast
    requires MutexInv(p, s, b)
    ensures var n := Step(p, s, t);
            && Shape(p, n) && |n.bar| == |s.bar| && n.bar[b] == s.bar[b].(round := s.bar[b].round + 1)
                && n.stage[t] == Reset
            && n.pos == s.pos
            && (forall u: nat :: u < |p| && u != t ==>
                  n.stage[u] == if At(p, s, u, b) && s.stage[u] == Waiting then Relock else s.stage[u])
            && ArrivedSet(p, n, b) == {}
  {
    ShapeStep(p, s, t);
    var n := Step(p, s, t);
    forall u: nat ensures !Arrived(p, n, u, b) {
      assert s.bar[b].owner == Some(u) <==> Inside(p, s, u, b);
      assert Inside(p, s, t, b);
    }
    assert ArrivedSet(p, n, b) == {};
  }

  lemma BroadcastKeeps(p: Programs, s: State, t: nat, b: nat)
    requires Shape(p, s) && b < |s.bar| && CanStep(p, s, t) && Current(p, s, t) == Wait(b) && s.stage[t] == Broadcast
    requires BarrierInv(p, s, b)
    ensures Shape(p, Step(p, s, t)) && b < |Step(p, s, t).bar| && BarrierInv(p, Step(p, s, t), b)
  {
    BroadcastReleases(p, s, t, b);
    var n := Step(p, s, t);
    assert Inside(p, s, t, b);
    assert s.bar[b].owner == Some(t);
    forall u: nat ensures n.bar[b].owner == Some(u) <==> Inside(p, n, u, b) {
      assert s.bar[b].owner == Some(u) <==> Inside(p, s, u, b);
    }
  }

  /** Every step keeps every barrier's invariant. */
  lemma BarrierStepKeeps(p: Programs, s: State, t: nat, b: nat)
    requires Shape(p, s) && b < |s.bar| && BarrierInv(p, s, b)
    ensures Shape(p, Step(p, s, t)) && b < |Step(p, s, t).bar| && BarrierInv(p, Step(p, s, t), b)
  {
    ShapeStep(p, s, t);
    if CanStep(p, s, t) {
      if Current(p, s, t) != Wait(b) {
        ElsewhereKeeps(p, s, t, b);
      } else if s.stage[t] == Broadcast {
        BroadcastKeeps(p, s, t, b);
      } else {
        HereKeeps(p, s, t, b);
      }
    }
  }

  // ------------------------------------------------------------------ rounds

  /** How often the first k statements call barrier_wait on b. */
  function Waits(ops: seq<Op>, k: nat, b: nat): nat
    requires k <= |ops|
  {
    if k == 0 then 0 else Waits(ops, k - 1, b) + (if ops[k - 1] == Wait(b) then 1 else 0)
  }

  /** How often thread t has entered barrier_wait on b (its decrement counts). */
  function Entered(p: Programs, s: State, t: nat, b: nat): nat
    requires Shape(p, s) && t < |p|
  {
    Waits(p[t], s.pos[t], b) + (if At(p, s, t, b) && s.stage[t] != Entry && s.stage[t] != Decrement then 1 else 0)
  }

  /** How often thread t has returned from barrier_wait on b. */
  function Returned(p: Programs, s: State, t: nat, b: nat): nat
    requires Shape(p, s) && t < |p|
  {
    Waits(p[t], s.pos[t], b)
  }

  /** The threads whose programs use b. */
  function Callers(p: Programs, b: nat): (r: set<nat>)
    ensures forall t :: t in r ==> t < |p|
  {
    set t: nat | t < |p| && Wait(b) in p[t]
  }

  /** A step changes how often its own thread has entered b by its decrement and nothing else. */
  lemma EnteredStep(p: Programs, s: State, t: nat, b: nat, u: nat)
    requires Shape(p, s) && b < |s.bar| && CanStep(p, s, t) && u < |p|
    ensures Shape(p, Step(p, s, t))
    ensures Entered(p, Step(p, s, t), u, b)
         == Entered(p, s, u, b) + (if u == t && Current(p, s, t) == Wait(b) && s.stage[t] == Decrement then 1 else 0)
  {
    ShapeStep(p, s, t);
  }

  lemma RoundStep(p: Programs, s: State, t: nat, b: nat)
    requires Shape(p, s) && b < |s.bar| && CanStep(p, s, t)
    ensures Step(p, s, t).bar[b].round
         == s.bar[b].round + (if Current(p, s, t) == Wait(b) && s.stage[t] == Broadcast then 1 else 0)
  {
    ShapeStep(p, s, t);
  }

  /** Of a team of threads, those that have arrived are one round ahead of those that have not. */
  ghost predicate RoundInv(p: Programs, s: State, b: nat, team: set<nat>)
    requires Shape(p, s) && b < |s.bar| && Team(p, b, team)
  {
    forall t: nat | t in team :: Entered(p, s, t, b) == s.bar[b].round + (if Arrived(p, s, t, b) then 1 else 0)
  }

  /** A set of threads that contains all callers of b. */
  predicate Team(p: Programs, b: nat, team: set<nat>) {
    Callers(p, b) <= team && forall t :: t in team ==> t < |p|
  }

  lemma ArrivedAreCallers(p: Programs, s: State, b: nat)
    requires Shape(p, s)
    ensures ArrivedSet(p, s, b) <= Callers(p, b)
  {
  }

  /** When the broadcast is made, as many threads as the barrier needs have arrived. */
  lemma BroadcastMeansFull(p: Programs, s: State, t: nat, b: nat)
    requires Shape(p, s) && b < |s.bar| && BarrierInv(p, s, b) && At(p, s, t, b) && s.stage[t] == Broadcast
    ensures |ArrivedSet(p, s, b)| == s.bar[b].initial && t in ArrivedSet(p, s, b)
  {
    assert Inside(p, s, t, b);
    assert s.bar[b].owner == Some(t);
    assert HolderIn(s, b, Broadcast);
  }

  lemma Bigger(x: set<nat>, y: set<nat>)
    ensures x <= y ==> |x| <= |y|
  {
    if x <= y {
      assert y == x + (y - x);
    }
  }

  lemma SubsetOfSameSize(x: set<nat>, y: set<nat>)
    requires x <= y && |x| == |y|
    ensures x == y
  {
    assert y == x + (y - x);
  }

  /** If the barrier is made for the size of the team, every step keeps the team together. */
  lemma RoundInvStep(p: Programs, s: State, t: nat, b: nat, team: set<nat>)
    requires Shape(p, s) && b < |s.bar| && CanStep(p, s, t) && Team(p, b, team) && |team| == s.bar[b].initial
    requires BarrierInv(p, s, b) && RoundInv(p, s, b, team)
    ensures Shape(p, Step(p, s, t)) && b < |Step(p, s, t).bar| && RoundInv(p, Step(p, s, t), b, team)
  {
    ShapeStep(p, s, t);
    var n := Step(p, s, t);
    RoundStep(p, s, t, b);
    var here := Current(p, s, t) == Wait(b);
    if here && s.stage[t] == Broadcast {
      BroadcastReleases(p, s, t, b);
      BroadcastMeansFull(p, s, t, b);
      ArrivedAreCallers(p, s, b);
      SubsetOfSameSize(ArrivedSet(p, s, b), team);
    } else if here {
      HereArrived(p, s, t, b);
    } else {
      ElsewhereKeeps(p, s, t, b);
    }
    forall u: nat | u in team
      ensures Entered(p, n, u, b) == n.bar[b].round + (if Arrived(p, n, u, b) then 1 else 0)
    {
      EnteredStep(p, s, t, b, u);
      assert u in ArrivedSet(p, s, b) <==> Arrived(p, s, u, b);
      assert u in ArrivedSet(p, n, b) <==> Arrived(p, n, u, b);
    }
  }

  // ------------------------------------------------------------------ every reachable state

  /** The programs fit the barriers and the array they run with. */
  predicate Proper(p: Programs, bars: nat, cells: nat) {
    forall t, i :: 0 <= t < |p| && 0 <= i < |p[t]| ==> Sensible(p[t][i], t, |p|, bars, cells)
  }

  /** The state the programs are in after a schedule. */
  function After(p: Programs, sizes: seq<int>, cells: nat, schedule: seq<nat>): State
    requires Proper(p, |sizes|, cells)
  {
    Run(p, Start(p, sizes, cells), schedule)
  }

  lemma StartKeeps(p: Programs, sizes: seq<int>, cells: nat, b: nat)
    requires Proper(p, |sizes|, cells) && b < |sizes| && sizes[b] >= 1
    ensures BarrierInv(p, Start(p, sizes, cells), b)
    ensures forall team | Team(p, b, team) :: RoundInv(p, Start(p, sizes, cells), b, team)
  {
    var s := Start(p, sizes, cells);
    assert ArrivedSet(p, s, b) == {};
  }

  lemma InitialStep(p: Programs, s: State, t: nat, b: nat)
    requires Shape(p, s) && b < |s.bar|
    ensures |Step(p, s, t).bar| == |s.bar| && Step(p, s, t).bar[b].initial == s.bar[b].initial
  {
  }

  lemma {:induction false} RunKeeps(p: Programs, s: State, schedule: seq<nat>, b: nat)
    requires Shape(p, s) && b < |s.bar| && BarrierInv(p, s, b)
    ensures var n := Run(p, s, schedule);
            && Shape(p, n) && |n.bar| == |s.bar| && n.bar[b].initial == s.bar[b].initial && BarrierInv(p, n, b)
            && (RoundInv(p, s, b, Callers(p, b)) && |Callers(p, b)| == s.bar[b].initial
                ==> RoundInv(p, n, b, Callers(p, b)))
    decreases |schedule|
  {
    hide BarrierInv, RoundInv, Callers, Step;
    if schedule != [] {
      var t := schedule[0];
      ShapeStep(p, s, t);
      InitialStep(p, s, t, b);
      BarrierStepKeeps(p, s, t, b);
      if RoundInv(p, s, b, Callers(p, b)) && |Callers(p, b)| == s.bar[b].initial {
        if CanStep(p, s, t) {
          RoundInvStep(p, s, t, b, Callers(p, b));
        } else {
          StuckStep(p, s, t);
        }
      }
      RunKeeps(p, Step(p, s, t), schedule[1..], b);
    }
  }

  lemma StuckStep(p: Programs, s: State, t: nat)
    requires Shape(p, s) && !CanStep(p, s, t)
    ensures Step(p, s, t) == s
  {
  }

  /** Reuse is safe: if as many threads use barrier b as it was made for, then under every schedule
      no thread has returned from its k-th barrier_wait unless all of them have entered their
      k-th.  The threads may call it any number of times, each as often as it likes. */
  lemma NoEarlyReturn(p: Programs, sizes: seq<int>, cells: nat, schedule: seq<nat>, b: nat, t: nat, u: nat)
    requires Proper(p, |sizes|, cells) && b < |sizes| && sizes[b] == |Callers(p, b)|
    requires t in Callers(p, b) && u in Callers(p, b)
    ensures var s := After(p, sizes, cells, schedule);
            Shape(p, s) && Returned(p, s, t, b) <= Entered(p, s, u, b) <= Returned(p, s, t, b) + 2
  {
    StartKeeps(p, sizes, cells, b);
    RunKeeps(p, Start(p, sizes, cells), schedule, b);
    var s := After(p, sizes, cells, schedule);
    assert Entered(p, s, t, b) == s.bar[b].round + (if Arrived(p, s, t, b) then 1 else 0);
    assert Entered(p, s, u, b) == s.bar[b].round + (if Arrived(p, s, u, b) then 1 else 0);
  }

  // ------------------------------------------------------------------ joins

  /** Every thread that has been joined has finished. */
  ghost predicate JoinsDone(p: Programs, s: State)
    requires Shape(p, s)
  {
    forall t, i :: 0 <= t < |p| && 0 <= i < s.pos[t] && p[t][i].Join? ==> Finished(p, s, p[t][i].u)
  }

  /** A step moves its own thread on by at most one statement, and no finished thread. */
  lemma PosStep(p: Programs, s: State, t: nat)
    requires Shape(p, s) && CanStep(p, s, t)
    ensures var n := Step(p, s, t);
      && |n.pos| == |s.pos| && (n.pos[t] == s.pos[t] || n.pos[t] == s.pos[t] + 1)
      && (forall u :: 0 <= u < |p| && u != t ==> n.pos[u] == s.pos[u])
  {
  }

  lemma JoinsStep(p: Programs, s: State, t: nat)
    requires Shape(p, s) && JoinsDone(p, s)
    ensures Shape(p, Step(p, s, t)) && JoinsDone(p, Step(p, s, t))
  {
    ShapeStep(p, s, t);
    if CanStep(p, s, t) {
      PosStep(p, s, t);
      var n := Step(p, s, t);
      hide Step;
      forall u, i | 0 <= u < |p| && 0 <= i < n.pos[u] && p[u][i].Join? ensures Finished(p, n, p[u][i].u) {
        assert Finished(p, s, p[u][i].u);
      }
    } else {
      StuckStep(p, s, t);
    }
  }

  lemma {:induction false} JoinsRun(p: Programs, s: State, schedule: seq<nat>)
    requires Shape(p, s) && JoinsDone(p, s)
    ensures Shape(p, Run(p, s, schedule)) && JoinsDone(p, Run(p, s, schedule))
    decreases |schedule|
  {
    hide JoinsDone, Step, Shape;
    if schedule != [] {
      JoinsStep(p, s, schedule[0]);
      JoinsRun(p, Step(p, s, schedule[0]), schedule[1..]);
    }
  }

  /** In every reachable state the threads joined so far have finished. */
  lemma JoinsAfter(p: Programs, sizes: seq<int>, cells: nat, schedule: seq<nat>)
    requires Proper(p, |sizes|, cells)
    ensures Shape(p, After(p, sizes, cells, schedule)) && JoinsDone(p, After(p, sizes, cells, schedule))
  {
    JoinsRun(p, Start(p, sizes, cells), schedule);
  }
}
