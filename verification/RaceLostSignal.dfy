/** When the program can lose a signal, after which init never returns: for every race except those
    that a repositioning at time 0 decides. */
module RaceLostSignal {
  import opened RaceSequential
  import opened RaceThreads
  import opened RaceSafety
  import opened RaceProgress
  import opened RaceSchedules

  /** The first entry of the array takes a player to the finishing line at time 0. */
  predicate DecidedAtOnce(c: Race) {
    && c.reposition != [] && c.reposition[0].time == 0 && c.reposition[0].player in {'H', 'T'}
    && c.reposition[0].distance >= 0 && c.reposition[0].distance >= c.finish
  }

  lemma DecidedIff(c: Race)
    ensures DecidedAtOnce(c) <==> !RandomizerTurn(c, Ticked(StartingLine(c)), 0).open
  {
  }

  /** A signal is lost if Randomizer dawdles after its loop test in the first round. */
  lemma SomeScheduleLosesSignal(c: Race) returns (schedule: seq<Agent>)
    requires !DecidedAtOnce(c)
    ensures Lost(After(c, schedule), Randomizer)
  {
    hide After, TurtleTurn, HareTurn;
    var s := RandomizerDawdles(c);
    s := ReportMoves(c, s);
    if s.g.open {
      s := Ticks(c, s);
      s := TurnBegins(c, s, Randomizer);
    } else {
      s := FinalSignal(c, s, Randomizer);
    }
    schedule :| After(c, schedule) == s;
  }

  lemma RandomizerDawdles(c: Race) returns (t: State)
    requires !DecidedAtOnce(c)
    ensures Reachable(c, t) && t.rp == RCheck && t.mp == Join(Randomizer)
    ensures t.wk.r == TestReached && forall v :: Resting(t.wk.Get(v))
  {
    hide After, TurtleTurn, HareTurn;
    t := FirstRoundBegins(c);
    t := Turn(c, t, Randomizer);
    t := HeadsHomeOnce(c, t, Randomizer);
    t := ReportMoves(c, t);
    t := Turn(c, t, Turtle);
    t := Turn(c, t, Hare);
  }

  lemma HeadsHomeOnce(c: Race, s: State, w: Worker) returns (t: State)
    requires Reachable(c, s) && s.g.open && s.wk.Get(w) == Loop
    ensures Reachable(c, t) && t == s.(wk := s.wk.Set(w, TestReached))
  {
    t := Move(c, s, Thread(w));
  }

  /** In a race decided at time 0 no worker passes its loop test again after its first turn. */
  predicate StaysOut(s: State, w: Worker) {
    s.rp != RNotCreated ==> s.wk.Get(w) != TestReached && s.wk.Get(w) != LockTurn
  }

  predicate FirstTurn(c: Race, s: State) {
    InTurn(s.wk.r) && Completed(c, s, Randomizer) == RandomizerTurn(c, Ticked(StartingLine(c)), 0)
  }

  /** The first turn decides the race, and there is no second round. */
  predicate Over(c: Race, s: State) {
    && s.g.tick <= 0
    && (s.g.tick == 0 ==>
          match s.rp
          case RUnlockClock => s.g == Ticked(StartingLine(c))
          case RLock(Randomizer) => s.g == Ticked(StartingLine(c))
          case RSignal(Randomizer) => s.g == Ticked(StartingLine(c))
          case RWait(Randomizer) => FirstTurn(c, s)
          case RParked(Randomizer) => FirstTurn(c, s)
          case _ => !s.g.open)
  }

  lemma OverSignal(c: Race, s: State)
    requires s.rp == RSignal(Randomizer) && s.wk.r == Parked && Over(c, s) && s.g.tick == 0
    ensures Over(c, ReporterStep(c, s))
  {
  }

  lemma OverReporter(c: Race, s: State)
    requires CanStep(s, Reporter) && s.rp != RSignal(Randomizer)
    requires DecidedAtOnce(c) && TokenInv(s) && FirstRoundInv(s) && FutureInv(c, s) && Over(c, s)
    ensures Over(c, ReporterStep(c, s))
  {
  }

  lemma OverRandomizer(c: Race, s: State)
    requires CanStep(s, Thread(Randomizer)) && s.rp == RParked(Randomizer) && DecidedAtOnce(c) && ClockInv(s)
        && Over(c, s)
    ensures Over(c, WorkerStep(c, s, Randomizer))
  {
    TickKept(c, s, Randomizer);
    if s.g.tick == 0 && s.wk.r != Signal {
      CompletedStep(c, s, Randomizer);
      assert InTurn(WorkerStep(c, s, Randomizer).wk.r);
    }
  }

  /** Every other worker step leaves the variables alone or finds the race decided. */
  lemma OverOther(c: Race, s: State, w: Worker)
    requires CanStep(s, Thread(w)) && s.rp != RParked(Randomizer)
    requires OwnerInv(s) && HandshakeInv(s) && FirstRoundInv(s) && TurnToken(s, w) && Over(c, s)
    ensures Over(c, WorkerStep(c, s, w))
  {
    TickKept(c, s, w);
    assert Greeting(s, w);
    if s.rp == RWait(Randomizer) {
      assert Holds(s, Reporter, TurnLock(Randomizer));
      assert Owns(s, Reporter, TurnLock(Randomizer));
    }
  }

  lemma OverBystander(c: Race, s: State, w: Worker)
    requires CanStep(s, Thread(w)) && s.rp == RParked(Randomizer) && w != Randomizer && HandshakeInv(s)
        && TurnToken(s, w) && Over(c, s)
    ensures Over(c, WorkerStep(c, s, w))
  {
    assert Greeting(s, w);
  }

  lemma OverStep(c: Race, s: State, a: Agent)
    requires CanStep(s, a) && DecidedAtOnce(c) && Inv(c, s) && Over(c, s)
    ensures Over(c, Step(c, s, a))
  {
    hide Over, FutureInv, HandshakeInv, FirstRoundInv, ClockInv, OwnerInv;
    match a
    case Main => OverMain(c, s);
    case Reporter =>
      if s.rp == RSignal(Randomizer) {
        TicksAtMostOnce(c, s);
        SignalServed(s, Randomizer);
        OverSignal(c, s);
      } else {
        OverReporter(c, s);
      }
    case Thread(w) =>
      assert TurnToken(s, w);
      if s.rp != RParked(Randomizer) {
        OverOther(c, s, w);
      } else if w == Randomizer {
        OverRandomizer(c, s);
      } else {
        OverBystander(c, s, w);
      }
  }

  lemma OverMain(c: Race, s: State)
    requires CanStep(s, Main) && HandshakeInv(s) && FirstRoundInv(s) && Over(c, s)
    ensures Over(c, MainStep(s))
  {
  }

  lemma SignalServed(s: State, w: Worker)
    requires OwnerInv(s) && FirstRoundInv(s) && s.rp == RSignal(w) && s.g.tick <= 0
    ensures s.g.tick == 0 && s.wk.Get(w) == Parked
  {
    assert FirstRound(s, w);
    assert Holds(s, Reporter, TurnLock(w));
    if s.wk.Get(w) == Wait {
      Exclusion(s, Reporter, Thread(w), TurnLock(w));
    }
  }

  lemma StaysOutMain(s: State, w: Worker)
    requires CanStep(s, Main) && HandshakeInv(s) && FirstRoundInv(s) && StaysOut(s, w)
    ensures StaysOut(MainStep(s), w)
  {
    assert Greeting(s, w) && FirstRound(s, w);
  }

  lemma StaysOutWorker(c: Race, s: State, w: Worker)
    requires CanStep(s, Thread(w)) && FirstRoundInv(s) && Over(c, s) && StaysOut(s, w)
    ensures StaysOut(WorkerStep(c, s, w), w)
  {
    assert FirstRound(s, w);
  }

  lemma StaysOutStep(c: Race, s: State, a: Agent, w: Worker)
    requires CanStep(s, a) && HandshakeInv(s) && FirstRoundInv(s) && Over(c, s) && StaysOut(s, w)
    ensures StaysOut(Step(c, s, a), w)
  {
    match a
    case Main => StaysOutMain(s, w);
    case Reporter =>
    case Thread(u) => if u == w { StaysOutWorker(c, s, w); }
  }

  lemma TicksAtMostOnce(c: Race, s: State)
    requires Over(c, s)
    ensures s.g.tick <= 0
  {
  }

  lemma InvParts(c: Race, s: State)
    requires Inv(c, s)
    ensures HandshakeInv(s) && FirstRoundInv(s) && OwnerInv(s)
  {
  }

  lemma ServedWhenOver(s: State)
    requires OwnerInv(s) && FirstRoundInv(s) && s.g.tick <= 0 && forall w :: StaysOut(s, w)
    ensures Served(s)
  {
    match s.rp
    case RSignal(w) => SignalServed(s, w);
    case ESignal(w) => assert StaysOut(s, w);
    case _ =>
  }

  lemma {:induction false} AlwaysServed(c: Race, s: State, schedule: seq<Agent>)
    requires DecidedAtOnce(c) && Inv(c, s) && Over(c, s) && forall w :: StaysOut(s, w)
    ensures AllServed(c, s, schedule)
    decreases |schedule|
  {
    hide Over, Inv, Served;
    if schedule != [] {
      var a := schedule[0];
      InvStep(c, s, a);
      InvParts(c, s);
      TicksAtMostOnce(c, s);
      ServedWhenOver(s);
      if CanStep(s, a) {
        OverStep(c, s, a);
        forall w ensures StaysOut(Step(c, s, a), w) {
          StaysOutStep(c, s, a, w);
        }
      }
      AlwaysServed(c, Step(c, s, a), schedule[1..]);
    }
  }

  /** The program can lose a signal, and with it the chance that init ever returns, if and only if
      the race is not already decided by a repositioning at time 0. */
  lemma SignalCanBeLostIff(c: Race)
    ensures (exists schedule :: !AllServed(c, Initial(c), schedule)) <==> !DecidedAtOnce(c)
  {
    if DecidedAtOnce(c) {
      InvInitial(c);
      forall schedule ensures AllServed(c, Initial(c), schedule) {
        AlwaysServed(c, Initial(c), schedule);
      }
    } else {
      var schedule := SomeScheduleLosesSignal(c);
      ServedIffNothingLost(c, schedule);
      assert !AllServed(c, Initial(c), schedule);
    }
  }

  /** The repositioned player, except that a hare put on a finishing line at 0 ties with the turtle. */
  function FirstWinner(c: Race): char
    requires DecidedAtOnce(c)
  {
    if c.reposition[0].player == 'H' && c.finish == 0 then 'T' else c.reposition[0].player
  }

  /** In such a race, whatever the schedule, when no thread can move all have finished and init has
      returned the winner. */
  lemma DecidedAtOnceEnds(c: Race, schedule: seq<Agent>)
    requires DecidedAtOnce(c) && Stuck(After(c, schedule))
    ensures Finished(After(c, schedule)) && After(c, schedule).mp == Returned(FirstWinner(c))
  {
    hide After, Sim;
    SignalCanBeLostIff(c);
    FinishesIffServed(c, schedule);
    ServedRaceReturnsWinner(c, schedule);
    var x := After(c, schedule).mp.x;
    var n: nat :| WinsAfter(c, n, x);
    FirstEntryWins(c);
    SequentialWinnerUnique(c, n, 1, x, FirstWinner(c));
  }

  lemma FirstEntryWins(c: Race)
    requires DecidedAtOnce(c)
    ensures WinsAfter(c, 1, FirstWinner(c))
  {
    var r := RandomizerTurn(c, Ticked(StartingLine(c)), 0);
    assert !r.open && r.winner == c.reposition[0].player;
    assert Sim(c, 1) == HareTurn(c, TurtleTurn(c, ReportLine(c, r)));
  }

  /** After a lost signal init does not return, however the schedule goes on. */
  lemma LostNeverReturns(c: Race, schedule: seq<Agent>, more: seq<Agent>)
    requires !AllServed(c, Initial(c), schedule)
    ensures !After(c, schedule + more).mp.Returned?
  {
    ServedIffNothingLost(c, schedule);
    var w :| Lost(After(c, schedule), w);
    InvAfter(c, schedule);
    LostForever(c, After(c, schedule), more, w);
    RunAppend(c, Initial(c), schedule, more);
    InvAfter(c, schedule + more);
    LostMeansUnfinished(c, After(c, schedule + more), w);
  }

  /** A race that Randomizer decides at time 1. */
  const LATE: Race := Settings(1, 1, 1, 0, 5, 10, [Reposition('T', 1, 100)])

  /** After its first turn Turtle stays before its loop test until Randomizer has closed the race. */
  lemma TurtleLeaves() returns (t: State)
    ensures Reachable(LATE, t) && t.rp == RPrint && t.mp == Join(Randomizer)
    ensures t.wk.t == Exited && forall v :: Resting(t.wk.Get(v))
  {
    hide After;
    t := TurtleDawdles();
    t := Turn(LATE, t, Randomizer);
    assert !t.g.open;
    t := Settles(LATE, t, Turtle);
  }

  lemma TurtleDawdles() returns (t: State)
    ensures Reachable(LATE, t) && t.rp == RLock(Randomizer) && t.mp == Join(Randomizer)
    ensures t.g.open && t.g.tick == 1 && t.g.index == 0 && t.g.turtle >= 0
    ensures t.wk == PerWorker(Parked, Loop, Parked)
  {
    hide After;
    t := FirstRoundBegins(LATE);
    t := Turn(LATE, t, Randomizer);
    t := Settles(LATE, t, Randomizer);
    t := ReportMoves(LATE, t);
    t := Turn(LATE, t, Turtle);
    t := Turn(LATE, t, Hare);
    assert t.g.open && t.g.tick == 0 && t.g.index == 0 && t.wk.t == Loop;
    t := Settles(LATE, t, Hare);
    t := ReportMoves(LATE, t);
    t := Ticks(LATE, t);
    assert t.wk.r == Parked && t.wk.t == Loop && t.wk.h == Parked;
  }

  /** It is not enough that Report's signals find their workers parked or exited: here all earlier
      signals have reached their workers, the next one finds Turtle exited, and Report then waits
      for Turtle in vain. */
  lemma ExitedWorkerIsMissed() returns (s: State)
    ensures Reachable(LATE, s) && NothingLost(s) && s.rp == RSignal(Turtle) && s.wk.Get(Turtle) == Exited
    ensures Lost(Step(LATE, s, Reporter), Turtle)
  {
    hide After;
    s := TurtleLeaves();
    s := ReportMoves(LATE, s);
    ReportCanLock(LATE, s);
    s := ReportMoves(LATE, s);
  }
}
