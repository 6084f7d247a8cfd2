/** barrier-testcase2.c for any number N of threads: every thread adds to its own array cell, and
    thread 0 sums the array between barriers. */
module PhaseClient {
  import opened BarrierMachine
  import opened BarrierSafety
  import opened BarrierProgress
  import opened BarrierReuse

  /** Statement i of thread 0. */
  function SummerOp(n: nat, i: nat): Op {
    if i == 0 then Add(1)
    else if i == 1 then Wait(0)
    else if i < 2 + n then Read(i - 2)
    else if i == 2 + n then Show
    else if i == 3 + n then Wait(0)
    else if i == 4 + n then Add(10)
    else if i == 5 + n then Wait(0)
    else if i == 6 + n then Clear
    else if i < 7 + 2 * n then Read(i - 7 - n)
    else Show
  }

  function Summer(n: nat): seq<Op> {
    seq(8 + 2 * n, i requires 0 <= i < 8 + 2 * n => SummerOp(n, i))
  }

  const OTHER: seq<Op> := [Add(1), Wait(0), Wait(0), Add(10), Wait(0)]

  /** main joins the threads one after the other. */
  function MainThread(n: nat): seq<Op> {
    seq(n, i requires 0 <= i < n => Join(i))
  }

  /** Threads 0 to n - 1 and, as thread n, main. */
  function Program(n: nat, t: nat): seq<Op> {
    if t == n then MainThread(n) else if t == 0 then Summer(n) else OTHER
  }

  function Phases(n: nat): Programs {
    seq(n + 1, t requires 0 <= t < n + 1 => Program(n, t))
  }

  lemma PhasesProper(n: nat)
    requires n >= 1
    ensures Proper(Phases(n), 1, n)
  {
  }

  lemma PhasesCallers(n: nat)
    requires n >= 1
    ensures Callers(Phases(n), 0) == Below(n)
  {
    var p := Phases(n);
    assert p[0][1] == Wait(0);
    forall t: nat | 0 < t < n ensures Wait(0) in p[t] {
      assert p[t][1] == Wait(0);
    }
    assert forall i :: 0 <= i < |p[n]| ==> p[n][i].Join?;
  }

  /** How often thread t has come back from the barrier at position k. */
  function Passed(n: nat, t: nat, k: nat): nat {
    if t == 0 then (if k <= 1 then 0 else if k <= 3 + n then 1 else if k <= 5 + n then 2 else 3)
    else (if k <= 1 then 0 else if k <= 2 then 1 else if k <= 4 then 2 else 3)
  }

  lemma {:induction false} PassedIsWaits(n: nat, t: nat, k: nat)
    requires t < n && k <= |Phases(n)[t]|
    ensures Waits(Phases(n)[t], k, 0) == Passed(n, t, k)
  {
    if k > 0 {
      PassedIsWaits(n, t, k - 1);
    }
  }

  // ------------------------------------------------------------------ array and sums

  /** What thread t has added to its cell at position k. */
  function Added(n: nat, t: nat, k: nat): int {
    (if k >= 1 then 1 else 0) + (if k >= (if t == 0 then 5 + n else 4) then 10 else 0)
  }

  /** What thread 0 has summed up at position k. */
  predicate Summed(n: nat, k: nat, sum: int) {
    && (k <= 2 + n ==> sum == if k <= 2 then 0 else k - 2)
    && (k >= 7 + n ==> sum == if k <= 7 + 2 * n then 11 * (k - 7 - n) else 11 * n)
  }

  /** What has been printed when thread 0 is at position k. */
  function Printed(n: nat, k: nat): seq<Event> {
    (if k > 2 + n then [Total(n)] else []) + (if k > 7 + 2 * n then [Total(11 * n)] else [])
  }

  ghost predicate PhaseInv(n: nat, s: State)
    requires Shape(Phases(n), s)
  {
    && n >= 1 && |s.bar| == 1 && |s.cell| == n && s.bar[0].initial == n
    && BarrierInv(Phases(n), s, 0) && RoundInv(Phases(n), s, 0, Callers(Phases(n), 0))
    && (forall t: nat :: t < n ==> s.cell[t] == Added(n, t, s.pos[t]))
    && Summed(n, s.pos[0], s.sum[0])
    && s.log == Printed(n, s.pos[0])
  }

  /** Thread 0 is summing, for the first or the second time. */
  predicate FirstSum(n: nat, k: nat) { 2 <= k <= 2 + n }
  predicate SecondSum(n: nat, k: nat) { 7 + n <= k <= 7 + 2 * n }

  predicate CallsBarrier(n: nat, t: nat, k: nat) {
    if t == 0 then k == 1 || k == 3 + n || k == 5 + n else k == 1 || k == 2 || k == 4
  }

  /** The round the barrier is in, from the position of any one thread. */
  lemma RoundFromPosition(n: nat, s: State, t: nat)
    requires Shape(Phases(n), s) && PhaseInv(n, s) && t < n
    ensures Passed(n, t, s.pos[t]) <= s.bar[0].round <= Passed(n, t, s.pos[t]) + 1
    ensures !CallsBarrier(n, t, s.pos[t]) ==> s.bar[0].round == Passed(n, t, s.pos[t])
  {
    hide BarrierInv, Phases, Shape, PhaseInv, RoundInv, Waits;
    EnteredInRound(n, s, t);
    PassedIsWaits(n, t, s.pos[t]);
    if !CallsBarrier(n, t, s.pos[t]) {
      NotCalling(n, s, t);
    }
  }

  lemma EnteredInRound(n: nat, s: State, t: nat)
    requires Shape(Phases(n), s) && PhaseInv(n, s) && t < n
    ensures t < |Phases(n)| && |s.bar| == 1 && |s.pos| == |Phases(n)| && s.pos[t] <= |Phases(n)[t]|
    ensures Entered(Phases(n), s, t, 0) == s.bar[0].round + (if Arrived(Phases(n), s, t, 0) then 1 else 0)
  {
    hide BarrierInv, Callers, Waits;
    PhasesCallers(n);
  }

  lemma NotCalling(n: nat, s: State, t: nat)
    requires Shape(Phases(n), s) && t < n && !CallsBarrier(n, t, s.pos[t])
    ensures !At(Phases(n), s, t, 0)
  {
  }

  /** While thread 0 sums, every other thread is between its additions, or past them. */
  lemma SumsAreQuiet(n: nat, s: State, t: nat)
    requires Shape(Phases(n), s) && PhaseInv(n, s) && t < n
    ensures FirstSum(n, s.pos[0]) ==> s.cell[t] == 1 && (t != 0 ==> 1 <= s.pos[t] <= 2)
    ensures SecondSum(n, s.pos[0]) ==> s.cell[t] == 11 && (t != 0 ==> 4 <= s.pos[t])
  {
    RoundFromPosition(n, s, 0);
    RoundFromPosition(n, s, t);
    assert s.cell[t] == Added(n, t, s.pos[t]);
    hide BarrierInv, RoundInv, Phases, Shape, PhaseInv;
  }

  lemma PhaseStart(n: nat)
    requires n >= 1
    ensures Proper(Phases(n), 1, n) && PhaseInv(n, Start(Phases(n), [n], n))
  {
    PhasesProper(n);
    PhasesCallers(n);
    StartKeeps(Phases(n), [n], n, 0);
  }

  lemma OpOf(n: nat, t: nat, k: nat)
    requires t <= n && k < |Phases(n)[t]|
    ensures Phases(n)[t][k] == if t == n then Join(k) else if t == 0 then SummerOp(n, k) else OTHER[k]
  {
  }

  lemma CellsStep(n: nat, s: State, t: nat, u: nat)
    requires Shape(Phases(n), s) && CanStep(Phases(n), s, t) && n >= 1 && |s.bar| == 1 && |s.cell| == n && u < n
    requires s.cell[u] == Added(n, u, s.pos[u])
    ensures var m := Step(Phases(n), s, t); |m.cell| == n && |m.pos| == n + 1 && m.cell[u] == Added(n, u, m.pos[u])
  {
    OpOf(n, t, s.pos[t]);
  }

  lemma SumStep(n: nat, s: State)
    requires Shape(Phases(n), s) && CanStep(Phases(n), s, 0) && PhaseInv(n, s)
    ensures var m := Step(Phases(n), s, 0);
            |m.pos| == n + 1 && |m.sum| == n + 1 && Summed(n, m.pos[0], m.sum[0]) && m.log == Printed(n, m.pos[0])
  {
    hide BarrierInv, RoundInv;
    var k := s.pos[0];
    OpOf(n, 0, k);
    if 2 <= k < 2 + n {
      SumsAreQuiet(n, s, k - 2);
    } else if 7 + n <= k < 7 + 2 * n {
      SumsAreQuiet(n, s, k - 7 - n);
    }
    hide PhaseInv, Phases;
  }

  lemma SumOther(n: nat, s: State, t: nat)
    requires Shape(Phases(n), s) && CanStep(Phases(n), s, t) && n >= 1 && t != 0
    ensures var m := Step(Phases(n), s, t);
            |m.pos| == n + 1 && |m.sum| == n + 1 && m.pos[0] == s.pos[0] && m.sum[0] == s.sum[0] && m.log == s.log
  {
    OpOf(n, t, s.pos[t]);
  }

  lemma PhaseStep(n: nat, s: State, t: nat)
    requires Shape(Phases(n), s) && PhaseInv(n, s)
    ensures Shape(Phases(n), Step(Phases(n), s, t)) && PhaseInv(n, Step(Phases(n), s, t))
  {
    var p := Phases(n);
    ShapeStep(p, s, t);
    if CanStep(p, s, t) {
      BarrierStepKeeps(p, s, t, 0);
      PhasesCallers(n);
      RoundInvStep(p, s, t, 0, Callers(p, 0));
      InitialStep(p, s, t, 0);
      forall u: nat | u < n ensures Step(p, s, t).cell[u] == Added(n, u, Step(p, s, t).pos[u]) {
        CellsStep(n, s, t, u);
      }
      if t == 0 { SumStep(n, s); } else { SumOther(n, s, t); }
    }
    hide Step, CanStep, BarrierInv, RoundInv, Phases, Shape;
  }

  lemma {:induction false} PhaseRun(n: nat, s: State, schedule: seq<nat>)
    requires Shape(Phases(n), s) && PhaseInv(n, s)
    ensures PhaseInv(n, Run(Phases(n), s, schedule))
    decreases |schedule|
  {
    hide PhaseInv;
    if schedule != [] {
      PhaseStep(n, s, schedule[0]);
      PhaseRun(n, Step(Phases(n), s, schedule[0]), schedule[1..]);
    }
  }

  /** The state of the test case after a schedule. */
  function Reached(n: nat, schedule: seq<nat>): (s: State)
    requires n >= 1
    ensures Shape(Phases(n), s)
  {
    PhasesProper(n);
    After(Phases(n), [n], n, schedule)
  }

  lemma ReachedInv(n: nat, schedule: seq<nat>)
    requires n >= 1
    ensures PhaseInv(n, Reached(n, schedule))
  {
    PhaseStart(n);
    PhaseRun(n, Start(Phases(n), [n], n), schedule);
  }

  /** Under every schedule the sums printed so far are the first ones of N and 11 N, and while a sum
      is being taken no thread is about to write to the array. */
  lemma SumsAreRight(n: nat, schedule: seq<nat>, t: nat)
    requires n >= 1 && t < n
    ensures var s := Reached(n, schedule);
            && s.log <= [Total(n), Total(11 * n)]
            && (Finished(Phases(n), s, 0) ==> s.log == [Total(n), Total(11 * n)])
            && (FirstSum(n, s.pos[0]) || SecondSum(n, s.pos[0]) ==>
                  Finished(Phases(n), s, t) || !Current(Phases(n), s, t).Add?)
  {
    ReachedInv(n, schedule);
    var s := Reached(n, schedule);
    SumsAreQuiet(n, s, t);
    if !Finished(Phases(n), s, t) {
      OpOf(n, t, s.pos[t]);
    }
  }

  lemma PhasesSameCalls(n: nat)
    requires n >= 1
    ensures SameCalls(Phases(n))
  {
    hide Calls, Callers;
    PhasesCallers(n);
    forall t: nat | t < n ensures Calls(Phases(n), t) == 3 {
      ThreeCalls(n, t);
    }
  }

  lemma ThreeCalls(n: nat, t: nat)
    requires t < n
    ensures Calls(Phases(n), t) == 3
  {
    PassedIsWaits(n, t, |Phases(n)[t]|);
  }

  lemma ThreadJoinsNobody(n: nat, t: nat)
    requires t < n
    ensures JoinsNobody(Phases(n)[t])
  {
  }

  lemma PhasesJoinNobody(n: nat)
    requires n >= 1
    ensures CallersJoinNobody(Phases(n))
  {
    PhasesCallers(n);
    hide Phases, Callers, JoinsNobody;
    forall t: nat | t in Callers(Phases(n), 0) ensures JoinsNobody(Phases(n)[t]) {
      PhasesThreads(n);
      ThreadJoinsNobody(n, t);
    }
  }

  lemma StuckMainFinished(n: nat, s: State)
    requires Shape(Phases(n), s) && Stuck(Phases(n), s) && n >= 1 && |s.bar| == 1 && MutexInv(Phases(n), s, 0)
    requires forall t: nat :: t < n ==> Finished(Phases(n), s, t)
    ensures Finished(Phases(n), s, n)
  {
    if !Finished(Phases(n), s, n) {
      StuckShape(Phases(n), s, n);
      OpOf(n, n, s.pos[n]);
    }
  }

  /** Every schedule that leaves nobody able to move has brought all threads, main included, to
      their ends, with both sums printed. */
  lemma TestCaseEnds(n: nat, schedule: seq<nat>)
    requires n >= 1 && Stuck(Phases(n), Reached(n, schedule))
    ensures AllFinished(Phases(n), Reached(n, schedule)) && Reached(n, schedule).log == [Total(n), Total(11 * n)]
  {
    var p := Phases(n);
    var s := Reached(n, schedule);
    hide Phases, Reached, Stuck, SameCalls, CallersJoinNobody, Callers, MutexInv, CountInv, RoundInv;
    ReachedInv(n, schedule);
    PhasesSameCalls(n);
    PhasesJoinNobody(n);
    PhasesCallers(n);
    StuckCallersFinishedIff(p, s);
    StuckMainFinished(n, s);
    PhasesThreads(n);
    SumsAreRight(n, schedule, 0);
  }

  lemma PhasesThreads(n: nat)
    ensures |Phases(n)| == n + 1
  {
  }

  /** When main has finished, and with it the process, all threads have finished and both sums have
      been printed. */
  lemma MainEndsLast(n: nat, schedule: seq<nat>)
    requires n >= 1
    ensures |Phases(n)| == n + 1
    ensures Finished(Phases(n), Reached(n, schedule), n) ==>
      AllFinished(Phases(n), Reached(n, schedule)) && Reached(n, schedule).log == [Total(n), Total(11 * n)]
  {
    PhasesThreads(n);
    var p := Phases(n);
    var s := Reached(n, schedule);
    PhasesProper(n);
    JoinsAfter(p, [n], n, schedule);
    SumsAreRight(n, schedule, 0);
    if Finished(p, s, n) {
      forall t: nat | t < n ensures Finished(p, s, t) {
        OpOf(n, n, t);
        assert p[n][t] == Join(t);
      }
    }
    hide Reached, Phases, Shape;
  }
}
