/** When the race machine can get stuck: exactly when one of Report's signals finds its worker not
    yet waiting.  Report's turn signals must find the worker parked; its final signals must not
    fall between a worker's loop test and its pthread_cond_wait. */
module RaceProgress {
  import opened Wrappers
  import opened RaceSequential
  import opened RaceThreads
  import opened RaceSafety

  /** Past the loop test, not yet woken up. */
  predicate Approaching(pc: WorkerPc) {
    pc in {TestReached, FirstLockMain, FirstSetReached, FirstLockTurn, FirstSignal, FirstUnlockMain, LockTurn, Wait,
        Parked}
  }

  /** Worker w will never be woken up although somebody waits for it. */
  predicate Lost(s: State, w: Worker) {
    || (s.rp in {RWait(w), RParked(w)} && !InTurn(s.wk.Get(w)))
    || (Dismissed(w, s.rp) && !s.g.open && Approaching(s.wk.Get(w)))
  }

  /** If Report is about to signal, the signal reaches the worker it is for. */
  predicate Served(s: State) {
    match s.rp
    case RSignal(w) => s.wk.Get(w) == Parked
    case ESignal(w) => s.wk.Get(w) !in {TestReached, LockTurn}
    case _ => true
  }

  /** Every signal Report sends under the schedule reaches its worker. */
  predicate AllServed(c: Race, s: State, schedule: seq<Agent>)
    decreases |schedule|
  {
    schedule == [] || ((schedule[0] == Reporter ==> Served(s)) && AllServed(c, Step(c, s, schedule[0]), schedule[1..]))
  }

  lemma LostKeptByReporter(c: Race, s: State, w: Worker)
    requires CanStep(s, Reporter) && Lost(s, w)
    ensures Lost(ReporterStep(c, s), w)
  {
  }

  lemma LostKeptByWorker(c: Race, s: State, u: Worker, w: Worker)
    requires CanStep(s, Thread(u)) && TokenInv(s) && Lost(s, w)
    ensures Lost(WorkerStep(c, s, u), w)
  {
    assert TurnToken(s, u);
  }

  lemma LostKeptByMain(s: State, w: Worker)
    requires CanStep(s, Main) && HandshakeInv(s) && Lost(s, w)
    ensures Lost(MainStep(s), w)
  {
    assert Greeting(s, w);
  }

  /** A lost signal stays lost. */
  lemma LostKept(c: Race, s: State, a: Agent, w: Worker)
    requires Inv(c, s) && Lost(s, w)
    ensures Lost(Step(c, s, a), w)
  {
    if CanStep(s, a) {
      match a
      case Main => LostKeptByMain(s, w);
      case Reporter => LostKeptByReporter(c, s, w);
      case Thread(u) => LostKeptByWorker(c, s, u, w);
    }
  }

  lemma LostBySignal(c: Race, s: State, w: Worker)
    requires OwnerInv(s) && HandshakeInv(s) && TokenInv(s) && s.rp in {RSignal(w), ESignal(w)}
    ensures Lost(ReporterStep(c, s), w) <==> !Served(s)
  {
    assert TurnToken(s, w) && Greeting(s, w);
    assert Holds(s, Reporter, TurnLock(w));
    if Holds(s, Thread(w), TurnLock(w)) {
      Exclusion(s, Reporter, Thread(w), TurnLock(w));
    }
  }

  lemma LostElsewhere(c: Race, s: State, w: Worker)
    requires CanStep(s, Reporter) && TokenInv(s) && s.rp !in {RSignal(w), ESignal(w)} && !Lost(s, w)
    ensures !Lost(ReporterStep(c, s), w)
  {
    assert TurnToken(s, w);
  }

  lemma LostByItself(c: Race, s: State, w: Worker)
    requires CanStep(s, Thread(w)) && TokenInv(s) && !Lost(s, w)
    ensures !Lost(WorkerStep(c, s, w), w)
  {
    hide NextAct, Owners;
    assert TurnToken(s, w);
  }

  lemma LostByAnother(c: Race, s: State, u: Worker, w: Worker)
    requires CanStep(s, Thread(u)) && u != w && TokenInv(s) && HandshakeInv(s) && !Lost(s, w)
    ensures !Lost(WorkerStep(c, s, u), w)
  {
    hide NextAct, Owners, WorkerNext;
    assert TurnToken(s, w) && TurnToken(s, u) && Greeting(s, w);
  }

  lemma LostByWorker(c: Race, s: State, u: Worker, w: Worker)
    requires CanStep(s, Thread(u)) && TokenInv(s) && HandshakeInv(s) && !Lost(s, w)
    ensures !Lost(WorkerStep(c, s, u), w)
  {
    if u == w { LostByItself(c, s, w); } else { LostByAnother(c, s, u, w); }
  }

  lemma LostByMain(c: Race, s: State, w: Worker)
    requires CanStep(s, Main) && HandshakeInv(s) && FirstRoundInv(s) && !Lost(s, w)
    ensures !Lost(MainStep(s), w)
  {
    assert Greeting(s, w);
  }

  /** A signal is lost exactly when Report sends it to a worker that it does not reach. */
  lemma LostExactly(c: Race, s: State, a: Agent, w: Worker)
    requires Inv(c, s) && !Lost(s, w)
    ensures Lost(Step(c, s, a), w) <==> a == Reporter && s.rp in {RSignal(w), ESignal(w)} && !Served(s)
  {
    if CanStep(s, a) {
      match a
      case Main => LostByMain(c, s, w);
      case Thread(u) => LostByWorker(c, s, u, w);
      case Reporter => if s.rp in {RSignal(w), ESignal(w)} { LostBySignal(c, s, w); } else { LostElsewhere(c, s, w); }
    }
  }

  ghost predicate NothingLost(s: State) {
    forall w :: !Lost(s, w)
  }

  lemma {:induction false} LostForever(c: Race, s: State, schedule: seq<Agent>, w: Worker)
    requires Inv(c, s) && Lost(s, w)
    ensures Lost(Run(c, s, schedule), w)
    decreases |schedule|
  {
    if schedule != [] {
      LostKept(c, s, schedule[0], w);
      InvStep(c, s, schedule[0]);
      LostForever(c, Step(c, s, schedule[0]), schedule[1..], w);
    }
  }

  lemma {:induction false} ServedRun(c: Race, s: State, schedule: seq<Agent>)
    requires Inv(c, s) && NothingLost(s)
    ensures AllServed(c, s, schedule) <==> NothingLost(Run(c, s, schedule))
    decreases |schedule|
  {
    if schedule != [] {
      var a := schedule[0];
      var t := Step(c, s, a);
      InvStep(c, s, a);
      forall w ensures Lost(t, w) <==> a == Reporter && s.rp in {RSignal(w), ESignal(w)} && !Served(s) {
        LostExactly(c, s, a, w);
      }
      if a == Reporter && !Served(s) {
        var w := s.rp.w;
        assert Lost(t, w);
        LostForever(c, t, schedule[1..], w);
      } else {
        ServedRun(c, t, schedule[1..]);
      }
    }
  }

  /** Along any schedule, all of Report's signals have reached their workers if and only if in the
      state reached nobody waits in vain. */
  lemma ServedIffNothingLost(c: Race, schedule: seq<Agent>)
    ensures AllServed(c, Initial(c), schedule) <==> NothingLost(After(c, schedule))
  {
    InvInitial(c);
    ServedRun(c, Initial(c), schedule);
  }

  // ------------------------------------------------------------------ deadlock

  predicate Finished(s: State) {
    s.mp.Returned? && s.rp == RExited && s.wk == PerWorker(Exited, Exited, Exited)
  }

  ghost predicate Stuck(s: State) {
    forall a :: !CanStep(s, a)
  }

  /** In a stuck state no lock is held: a lock's owner, or the owner of the lock it wants, can go on. */
  lemma StuckMeansUnlocked(c: Race, s: State, l: Lock)
    requires Inv(c, s) && Stuck(s)
    ensures l !in s.owner
  {
    if l in s.owner {
      var a := s.owner[l];
      assert Owns(s, a, l);
      assert Holds(s, a, l) && !CanStep(s, a);
      OwnerWantsInner(s, a, l);
      var m := Takes(s, a).value;
      var b := s.owner[m];
      assert Owns(s, b, m);
      assert Holds(s, b, m) && !CanStep(s, b);
      OwnerWantsInner(s, b, m);
      var n := Takes(s, b).value;
      assert Owns(s, s.owner[n], n);
      assert Holds(s, s.owner[n], n) && !CanStep(s, s.owner[n]);
      OwnerWantsInner(s, s.owner[n], n);
    }
  }

  /** Locks are nested in this order. */
  function Depth(l: Lock): nat {
    match l
    case StartLock(_) => 0
    case TurnLock(_) => 1
    case TurtleDistLock => 2
    case ClockLock => 3
    case HareDistLock => 3
  }

  lemma OwnerWantsInner(s: State, a: Agent, l: Lock)
    requires LegalInv(s) && Holds(s, a, l) && !CanStep(s, a)
    ensures Takes(s, a).Some? && Takes(s, a).value in s.owner && Depth(Takes(s, a).value) > Depth(l)
  {
  }

  /** Without a lost signal a stuck state is one in which init has returned. */
  lemma StuckMeansFinished(c: Race, s: State)
    requires Inv(c, s) && NothingLost(s) && Stuck(s)
    ensures Finished(s)
  {
    forall l: Lock ensures l !in s.owner {
      StuckMeansUnlocked(c, s, l);
    }
    forall a ensures Asleep(s, a) {
      assert !CanStep(s, a);
    }
    AllAsleepFinished(s);
  }

  /** When all threads sleep and no signal is lost, they have all come to their ends. */
  lemma AllAsleepFinished(s: State)
    requires HandshakeInv(s) && FirstRoundInv(s) && TokenInv(s) && JoinInv(s) && NothingLost(s)
        && forall a :: Asleep(s, a)
    ensures Finished(s)
  {
    assert Asleep(s, Main) && Asleep(s, Reporter);
    forall w ensures s.wk.Get(w) in {NotCreated, Parked, Exited} && s.mp != HParked(w) && s.rp != RParked(w) {
      assert Asleep(s, Thread(w)) && Greeting(s, w) && !Lost(s, w);
    }
    var u := match s.mp case HParked(w) => w case _ => Hare;
    var v := match s.rp case RParked(w) => w case _ => Hare;
    assert s.mp != HParked(u) && s.rp != RParked(v);
    assert s.rp == RExited && Greeted(s.mp) == 3;
    forall w ensures s.wk.Get(w) == Exited {
      assert Greeting(s, w) && !Lost(s, w);
    }
    assert s.wk.Get(Randomizer) == s.wk.Get(Turtle) == s.wk.Get(Hare) == Exited;
  }

  lemma LostMeansUnfinished(c: Race, s: State, w: Worker)
    requires Inv(c, s) && Lost(s, w)
    ensures !s.mp.Returned?
  {
  }

  /** A schedule that has run into a state where no thread can move has finished the race if and
      only if each of Report's signals reached its worker. */
  lemma FinishesIffServed(c: Race, schedule: seq<Agent>)
    requires Stuck(After(c, schedule))
    ensures Finished(After(c, schedule)) <==> AllServed(c, Initial(c), schedule)
  {
    InvAfter(c, schedule);
    var s := After(c, schedule);
    ServedIffNothingLost(c, schedule);
    if NothingLost(s) {
      StuckMeansFinished(c, s);
    } else {
      var w :| Lost(s, w);
      LostMeansUnfinished(c, s, w);
    }
  }

  // ------------------------------------------------------------------ termination

  /** Statements a worker can still execute before it parks or exits. */
  function WorkerRank(pc: WorkerPc): nat {
    match pc
    case NotCreated => 0
    case Parked => 0
    case Exited => 0
    case Wait => 1
    case FirstUnlockMain => 2
    case FirstSignal => 3
    case FirstLockTurn => 4
    case FirstSetReached => 5
    case FirstLockMain => 6
    case LockTurn => 2
    case TestReached => 7
    case Loop => 8
    case UnlockTurn => 9
    case Start => 9
    case Signal => 10
    case Act(a) => 10 + Rank(a)
    case UnlockClock => 25
    case ReadClock => 26
    case LockClock => 27
    case Relock => 28
  }

  /** The statements of Report from the tick on, waking a worker counting for its whole turn. */
  function ReporterRank(rp: ReporterPc, open: bool): nat {
    match rp
    case RNotCreated => 0
    case RUnlockClock => 302
    case RLock(w) => 301 - 50 * Number(w)
    case RSignal(w) => 300 - 50 * Number(w)
    case RWait(w) => 270 - 50 * Number(w)
    case RParked(w) => 269 - 50 * Number(w)
    case RRelock(w) => 268 - 50 * Number(w)
    case RUnlock(w) => 267 - 50 * Number(w)
    case RPrint => 260
    case RCheck => 160
    case ELock(w) => 150 - 50 * Number(w)
    case ESignal(w) => 149 - 50 * Number(w)
    case EUnlock(w) => 119 - 50 * Number(w)
    case RLoop => if open then 150 else 1
    case RLockClock => 149
    case RTick => 148
    case RExited => 0
  }

  function MainRank(m: MainPc): nat {
    match m
    case Create(w) => 400 - 40 * Number(w)
    case HLock(w) => 390 - 40 * Number(w)
    case HTest(w) => 389 - 40 * Number(w)
    case HWait(w) => 388 - 40 * Number(w)
    case HParked(w) => 387 - 40 * Number(w)
    case HRelock(w) => 386 - 40 * Number(w)
    case HUnlock(w) => 385 - 40 * Number(w)
    case CreateReport => 200
    case Join(w) => 10 - Number(w)
    case JoinReport => 1
    case Returned(_) => 0
  }

  /** An upper bound for the statements still to be executed if the race closes in round n. */
  function Potential(s: State, n: int): int {
    (n - s.g.tick - 1) * 400 + ReporterRank(s.rp, s.g.open) + MainRank(s.mp)
    + WorkerRank(s.wk.r) + WorkerRank(s.wk.t) + WorkerRank(s.wk.h)
  }

  function SumRanks(wk: PerWorker<WorkerPc>): nat {
    WorkerRank(wk.r) + WorkerRank(wk.t) + WorkerRank(wk.h)
  }

  lemma SumRanksSet(wk: PerWorker<WorkerPc>, w: Worker, pc: WorkerPc)
    ensures SumRanks(wk.Set(w, pc)) == SumRanks(wk) - WorkerRank(wk.Get(w)) + WorkerRank(pc)
  {
  }

  lemma WorkerRankDrops(c: Race, w: Worker, pc: WorkerPc, g: Globals, reached: bool, now: int)
    requires pc !in {NotCreated, Parked, Exited}
    ensures WorkerRank(WorkerNext(c, w, pc, g, reached, now)) < WorkerRank(pc)
  {
  }

  lemma NeverReopens(c: Race, w: Worker, pc: WorkerPc, g: Globals)
    ensures WorkerEffect(c, w, pc, g).open ==> g.open
  {
  }

  lemma PotentialWorker(c: Race, s: State, w: Worker, n: int)
    requires CanStep(s, Thread(w)) && TokenInv(s)
    ensures Potential(WorkerStep(c, s, w), n) < Potential(s, n)
  {
    hide NextAct, Owners, WorkerEffect, WorkerRank;
    var t := WorkerStep(c, s, w);
    NeverReopens(c, w, s.wk.Get(w), s.g);
    assert TurnToken(s, w);
    WorkerRankDrops(c, w, s.wk.Get(w), s.g, s.reached.Get(w), s.curr.Get(w));
    SumRanksSet(s.wk, w, t.wk.Get(w));
    TickKept(c, s, w);
    assert ReporterRank(t.rp, t.g.open) <= ReporterRank(s.rp, s.g.open);
  }

  lemma PotentialSignal(c: Race, s: State, w: Worker, n: int)
    requires s.rp in {RSignal(w), ESignal(w)}
    ensures Potential(ReporterStep(c, s), n) < Potential(s, n)
  {
    SumRanksSet(s.wk, w, Relock);
  }

  lemma PotentialReporter(c: Race, s: State, n: int)
    requires CanStep(s, Reporter) && TokenInv(s) && !s.rp.RSignal? && !s.rp.ESignal?
    ensures Potential(ReporterStep(c, s), n) < Potential(s, n)
  {
    assert ReporterStep(c, s).wk == s.wk;
  }

  lemma PotentialMain(s: State, n: int)
    requires CanStep(s, Main) && HandshakeInv(s)
    ensures Potential(MainStep(s), n) < Potential(s, n)
  {
    if s.mp.Create? {
      assert Greeting(s, s.mp.w);
      SumRanksSet(s.wk, s.mp.w, Start);
    }
  }

  /** Every statement lowers the potential. */
  lemma PotentialDrops(c: Race, s: State, a: Agent, n: int)
    requires Inv(c, s) && CanStep(s, a)
    ensures Potential(Step(c, s, a), n) < Potential(s, n)
  {
    match a
    case Main => PotentialMain(s, n);
    case Reporter =>
      if s.rp.RSignal? || s.rp.ESignal? {
        PotentialSignal(c, s, s.rp.w, n);
      } else {
        PotentialReporter(c, s, n);
      }
    case Thread(w) => PotentialWorker(c, s, w, n);
  }

  lemma {:induction false} RestKeepsTick(c: Race, w: Worker, a: ActPc, g: Globals, now: int)
    ensures Rest(c, w, a, g, now).tick == g.tick
    decreases Rank(a)
  {
    var n := NextAct(c, w, a, g, now);
    if n.Some? {
      RestKeepsTick(c, w, n.value, Effect(c, a, g), now);
    }
  }

  lemma TurnKeepsTick(c: Race, w: Worker, g: Globals)
    ensures TurnOf(c, w, g).tick == g.tick && AfterTurn(c, w, g).tick == g.tick
  {
  }

  lemma FutureKeepsTick(c: Race, s: State)
    ensures Future(c, s).tick == s.g.tick
  {
    match s.rp
    case RUnlockClock =>
      TurnKeepsTick(c, Randomizer, s.g);
      TurnKeepsTick(c, Randomizer, TurnOf(c, Randomizer, s.g));
    case RLock(w) =>
      TurnKeepsTick(c, w, s.g);
      TurnKeepsTick(c, w, TurnOf(c, w, s.g));
    case RSignal(w) =>
      TurnKeepsTick(c, w, s.g);
      TurnKeepsTick(c, w, TurnOf(c, w, s.g));
    case RWait(w) => CompletedKeepsTick(c, s, w);
    case RParked(w) => CompletedKeepsTick(c, s, w);
    case RRelock(w) => TurnKeepsTick(c, w, s.g);
    case RUnlock(w) => TurnKeepsTick(c, w, s.g);
    case RPrint => TurnKeepsTick(c, Randomizer, s.g);
    case _ =>
  }

  lemma CompletedKeepsTick(c: Race, s: State, w: Worker)
    ensures AfterTurn(c, w, Completed(c, s, w)).tick == s.g.tick
  {
    TurnKeepsTick(c, w, s.g);
    if s.wk.Get(w).Act? {
      RestKeepsTick(c, w, s.wk.Get(w).a, s.g, s.curr.Get(w));
    }
    TurnKeepsTick(c, w, Completed(c, s, w));
  }

  /** The clock never gets past the round in which the sequential race closes. */
  lemma PotentialNonNegative(c: Race, s: State, n: nat)
    requires FutureInv(c, s) && !Sim(c, n).open
    ensures Potential(s, n) >= 0
  {
    if s.g.tick + 1 > n {
      SimTick(c, n);
      SimStable(c, n, s.g.tick + 1);
      FutureKeepsTick(c, s);
    }
  }

  /** Each scheduled thread can move when its turn comes. */
  predicate AllMove(c: Race, s: State, schedule: seq<Agent>)
    decreases |schedule|
  {
    schedule == [] || (CanStep(s, schedule[0]) && AllMove(c, Step(c, s, schedule[0]), schedule[1..]))
  }

  lemma {:induction false} MovesBounded(c: Race, s: State, schedule: seq<Agent>, n: nat)
    requires Inv(c, s) && AllMove(c, s, schedule) && !Sim(c, n).open
    ensures |schedule| + Potential(Run(c, s, schedule), n) <= Potential(s, n)
    decreases |schedule|
  {
    if schedule != [] {
      InvStep(c, s, schedule[0]);
      PotentialDrops(c, s, schedule[0], n);
      MovesBounded(c, Step(c, s, schedule[0]), schedule[1..], n);
    }
  }

  /** If the sequential race closes in round n, the threads execute at most 400 (n + 1) statements. */
  lemma RunsAreFinite(c: Race, schedule: seq<Agent>, n: nat)
    requires !Sim(c, n).open && AllMove(c, Initial(c), schedule)
    ensures |schedule| <= 400 * (n + 1)
  {
    InvInitial(c);
    MovesBounded(c, Initial(c), schedule, n);
    InvAfter(c, schedule);
    PotentialNonNegative(c, After(c, schedule), n);
  }

  /** A schedule that leaves no thread able to move and loses no signal ends with init returning
      the winner of the sequential race. */
  lemma ServedRaceReturnsWinner(c: Race, schedule: seq<Agent>)
    requires Stuck(After(c, schedule)) && AllServed(c, Initial(c), schedule)
    ensures var s := After(c, schedule);
            s.mp.Returned? && SequentialWinner(c, s.mp.x)
  {
    FinishesIffServed(c, schedule);
    InitReturnsSequentialWinner(c, schedule);
  }
}
