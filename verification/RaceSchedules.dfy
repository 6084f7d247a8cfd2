/** Schedules of the race machine: for every race that ends there is one under which init returns. */
module RaceSchedules {
  import opened RaceSequential
  import opened RaceThreads
  import opened RaceSafety
  import opened RaceProgress

  ghost predicate Reachable(c: Race, s: State) {
    exists schedule :: After(c, schedule) == s
  }

  lemma ReachableInv(c: Race, s: State)
    requires Reachable(c, s)
    ensures Inv(c, s)
  {
    var schedule :| After(c, schedule) == s;
    InvAfter(c, schedule);
  }

  /** Let agent a make its next step. */
  lemma Move(c: Race, s: State, a: Agent) returns (t: State)
    requires Reachable(c, s)
    ensures t == Step(c, s, a) && Reachable(c, t)
  {
    var schedule :| After(c, schedule) == s;
    RunAppend(c, Initial(c), schedule, [a]);
    t := Step(c, s, a);
    assert Run(c, s, [a]) == Run(c, t, []) == t;
    assert After(c, schedule + [a]) == t;
  }

  /** Between two turns: holding no lock. */
  predicate Resting(pc: WorkerPc) {
    pc in {Parked, Loop, TestReached, Exited}
  }

  predicate ReportRests(rp: ReporterPc) {
    rp.RParked? || rp.RRelock? || rp.RLock? || rp.ELock? || rp in {RLoop, RPrint, RCheck, RExited}
  }

  /** Nobody but worker w holds a lock. */
  ghost predicate Alone(s: State, w: Worker) {
    && s.mp == Join(Randomizer) && ReportRests(s.rp)
    && (forall v :: v != w ==> Resting(s.wk.Get(v)))
  }

  lemma AloneCanStep(c: Race, s: State, w: Worker)
    requires Reachable(c, s) && Alone(s, w) && s.wk.Get(w) !in {NotCreated, Parked, Exited}
    ensures CanStep(s, Thread(w))
  {
    assert OwnerInv(s) by { ReachableInv(c, s); }
    if Takes(s, Thread(w)).Some? {
      var l := Takes(s, Thread(w)).value;
      forall a ensures !Owns(s, a, l) {
        assert Owns(s, a, l) <==> Holds(s, a, l);
      }
      assert l in s.owner ==> Owns(s, s.owner[l], l);
    }
  }

  /** Everything but worker w, its clock reading, the lock owners and the variables is the same. */
  ghost predicate OnlyMoved(s: State, t: State, w: Worker) {
    t.mp == s.mp && t.reached == s.reached && t.g.tick == s.g.tick
        && (forall v :: v != w ==> t.wk.Get(v) == s.wk.Get(v))
  }

  /** One statement of a turn: where it leads. */
  lemma PlaysOn(c: Race, s: State, w: Worker)
    requires CanStep(s, Thread(w)) && InTurn(s.wk.Get(w)) && Alone(s, w)
    ensures var t := WorkerStep(c, s, w);
            && OnlyMoved(s, t, w) && Alone(t, w)
            && (if s.wk.Get(w) == Signal then t.wk.Get(w) == UnlockTurn else InTurn(t.wk.Get(w)))
            && t.rp == (if s.rp == RParked(w) && s.wk.Get(w) == Signal then RRelock(w) else s.rp)
  {
    TickKept(c, s, w);
  }

  /** One statement of a turn: what it does to the variables. */
  lemma PlaysData(c: Race, s: State, w: Worker)
    requires CanStep(s, Thread(w)) && InTurn(s.wk.Get(w)) && ClockInv(s) && TurnToken(s, w) && FutureInv(c, s)
        && ReportRests(s.rp)
    ensures var t := WorkerStep(c, s, w);
            if s.rp != RParked(w) then t.g == s.g
            else if s.wk.Get(w) == Signal then t.g == s.g
            else Completed(c, t, w) == Completed(c, s, w)
  {
    if s.rp != RParked(w) {
      SimSettled(c, s.g.tick + 1);
    } else if s.wk.Get(w) != Signal {
      CompletedStep(c, s, w);
    }
  }

  /** A worker that has been woken up plays its turn to the end. */
  lemma PlaysTurn(c: Race, s: State, w: Worker) returns (t: State)
    requires Reachable(c, s) && Alone(s, w) && (InTurn(s.wk.Get(w)) || s.wk.Get(w) == UnlockTurn)
    ensures Reachable(c, t) && OnlyMoved(s, t, w) && t.wk.Get(w) == Loop
    ensures t.rp == if s.rp == RParked(w) && s.wk.Get(w) != UnlockTurn then RRelock(w) else s.rp
    ensures t.g == if s.rp == RParked(w) && s.wk.Get(w) != UnlockTurn then Completed(c, s, w) else s.g
    decreases WorkerRank(s.wk.Get(w))
  {
    AloneCanStep(c, s, w);
    t := Move(c, s, Thread(w));
    if s.wk.Get(w) != UnlockTurn {
      WorkerRankDrops(c, w, s.wk.Get(w), s.g, s.reached.Get(w), s.curr.Get(w));
      PlaysOn(c, s, w);
      assert ClockInv(s) && TurnToken(s, w) && FutureInv(c, s) by { ReachableInv(c, s); }
      PlaysData(c, s, w);
      t := PlaysTurn(c, t, w);
    }
  }

  /** Report executes one statement. */
  lemma ReportMoves(c: Race, s: State) returns (t: State)
    requires Reachable(c, s) && CanStep(s, Reporter)
    ensures Reachable(c, t) && t.mp == s.mp && t.reached == s.reached
    ensures t.rp == ReporterNext(s.rp, s.g.open) && t.g == ReporterEffect(c, s.rp, s.g)
    ensures t.wk == if s.rp.RSignal? || s.rp.ESignal? then Notify(s.wk, s.rp.w) else s.wk
  {
    t := Move(c, s, Reporter);
  }

  function Homeward(pc: WorkerPc): WorkerPc {
    match pc case Loop => TestReached case TestReached => LockTurn case LockTurn => Wait case _ => Parked
  }

  /** A worker on its way to its next wait executes one statement. */
  lemma HeadsHome(c: Race, s: State, w: Worker) returns (t: State)
    requires Reachable(c, s) && Alone(s, w) && s.g.open && s.reached.Get(w)
    requires s.wk.Get(w) in {Loop, TestReached, LockTurn, Wait}
    ensures Reachable(c, t) && t == s.(owner := t.owner, wk := s.wk.Set(w, Homeward(s.wk.Get(w))))
  {
    AloneCanStep(c, s, w);
    t := Move(c, s, Thread(w));
  }

  /** A worker between two turns goes back to waiting, or ends if there is a winner. */
  lemma Settles(c: Race, s: State, w: Worker) returns (t: State)
    requires Reachable(c, s) && Alone(s, w) && s.wk.Get(w) == Loop
    ensures Reachable(c, t) && t == s.(owner := t.owner, wk := s.wk.Set(w, if s.g.open then Parked else Exited))
  {
    hide After;
    if s.g.open {
      assert s.reached.Get(w) by { ReachableInv(c, s); assert Greeting(s, w); }
      t := HeadsHome(c, s, w);
      t := HeadsHome(c, t, w);
      t := HeadsHome(c, t, w);
      t := HeadsHome(c, t, w);
    } else {
      t := Move(c, s, Thread(w));
    }
  }

  lemma ReportCanLock(c: Race, s: State)
    requires Reachable(c, s) && s.mp == Join(Randomizer) && (s.rp.RLock? || s.rp.ELock? || s.rp.RRelock?)
    requires forall v :: Resting(s.wk.Get(v))
    ensures CanStep(s, Reporter)
  {
    assert OwnerInv(s) by { ReachableInv(c, s); }
    var l := TurnLock(s.rp.w);
    forall a ensures !Owns(s, a, l) {
      assert Owns(s, a, l) <==> Holds(s, a, l);
    }
    assert l in s.owner ==> Owns(s, s.owner[l], l);
  }

  /** Report wakes worker w and waits for it. */
  lemma TurnBegins(c: Race, s: State, w: Worker) returns (t: State)
    requires Reachable(c, s) && s.rp == RLock(w) && s.mp == Join(Randomizer)
    requires forall v :: Resting(s.wk.Get(v))
    ensures Reachable(c, t) && t.mp == s.mp && t.reached == s.reached && t.g == s.g && t.rp == RParked(w)
    ensures t.wk == Notify(s.wk, w)
  {
    ReportCanLock(c, s);
    t := ReportMoves(c, s);
    t := ReportMoves(c, t);
    t := ReportMoves(c, t);
  }

  /** Report gives worker w its turn; afterwards w is back at its loop test. */
  lemma Turn(c: Race, s: State, w: Worker) returns (t: State)
    requires Reachable(c, s) && s.rp == RLock(w) && s.wk.Get(w) == Parked && s.mp == Join(Randomizer)
    requires forall v :: Resting(s.wk.Get(v))
    ensures Reachable(c, t) && OnlyMoved(s, t, w) && t.wk.Get(w) == Loop && t.rp == ReporterNext(RUnlock(w), true)
    ensures t.g == TurnOf(c, w, s.g)
  {
    hide After;
    t := TurnBegins(c, s, w);
    assert t.wk.Get(w) == Relock;
    t := PlaysTurn(c, t, w);
    ReportCanLock(c, t);
    t := ReportMoves(c, t);
    t := ReportMoves(c, t);
  }

  /** A new round has ticked; every worker waits for its turn. */
  predicate RoundBegins(s: State) {
    s.rp == RLock(Randomizer) && s.mp == Join(Randomizer) && s.wk == PerWorker(Parked, Parked, Parked)
  }

  lemma ReportCanTick(c: Race, s: State)
    requires Reachable(c, s) && s.mp == Join(Randomizer) && s.rp == RLockClock
    requires forall v :: Resting(s.wk.Get(v))
    ensures CanStep(s, Reporter)
  {
    assert OwnerInv(s) by { ReachableInv(c, s); }
    forall a ensures !Owns(s, a, ClockLock) {
      assert Owns(s, a, ClockLock) <==> Holds(s, a, ClockLock);
    }
    assert ClockLock in s.owner ==> Owns(s, s.owner[ClockLock], ClockLock);
  }

  /** From the top of Report's loop to the first turn of the round. */
  lemma Ticks(c: Race, s: State) returns (t: State)
    requires Reachable(c, s) && s.rp == RLoop && s.g.open && s.mp == Join(Randomizer)
    requires forall v :: Resting(s.wk.Get(v))
    ensures Reachable(c, t) && t == s.(rp := RLock(Randomizer), g := Ticked(s.g), owner := t.owner)
  {
    t := Move(c, s, Reporter);
    ReportCanTick(c, t);
    t := Move(c, t, Reporter);
    t := Move(c, t, Reporter);
    t := Move(c, t, Reporter);
  }

  /** A whole round in which every worker goes back to waiting at once. */
  lemma Round(c: Race, s: State) returns (t: State)
    requires Reachable(c, s) && RoundBegins(s)
    ensures Reachable(c, t) && t.rp == RCheck && t.mp == Join(Randomizer) && t.g == Turns(c, s.g)
    ensures t.wk.Get(Hare) == if t.g.open then Parked else Exited
    ensures t.g.open ==> t.wk.Get(Turtle) == Parked && t.wk.Get(Randomizer) == Parked
    ensures t.wk.Get(Turtle) in {Parked, Exited} && t.wk.Get(Randomizer) in {Parked, Exited}
  {
    hide After;
    t := Turn(c, s, Randomizer);
    t := Settles(c, t, Randomizer);
    t := ReportMoves(c, t);
    t := Turn(c, t, Turtle);
    t := Settles(c, t, Turtle);
    t := Turn(c, t, Hare);
    t := Settles(c, t, Hare);
  }

  /** init starts worker w, which gets itself into waiting before init looks. */
  lemma Starts(c: Race, s: State, w: Worker) returns (t: State)
    requires Reachable(c, s) && s.mp == Create(w) && s.owner == map[] && !s.reached.Get(w)
    ensures Reachable(c, t)
    ensures t == s.(mp := HLock(w), wk := s.wk.Set(w, Loop),
        g := if w == Hare then s.g.(sleepCounter := c.hareSleepTime) else s.g)
  {
    t := Move(c, s, Main);
    t := Move(c, t, Thread(w));
  }

  lemma ComesForward(c: Race, s: State, w: Worker) returns (t: State)
    requires Reachable(c, s) && s.mp == HLock(w) && s.owner == map[] && !s.reached.Get(w) && s.g.open
        && s.wk.Get(w) == Loop
    ensures Reachable(c, t)
    ensures t == s.(wk := s.wk.Set(w, FirstSignal), reached := s.reached.Set(w, true),
                    owner := map[StartLock(w) := Thread(w), TurnLock(w) := Thread(w)])
  {
    hide After;
    t := Move(c, s, Thread(w));
    t := Move(c, t, Thread(w));
    assert t == s.(wk := s.wk.Set(w, FirstLockMain));
    t := Move(c, t, Thread(w));
    assert t == s.(wk := s.wk.Set(w, FirstSetReached), owner := map[StartLock(w) := Thread(w)]);
    t := Move(c, t, Thread(w));
    t := Move(c, t, Thread(w));
  }

  lemma GoesToWait(c: Race, s: State, w: Worker) returns (t: State)
    requires Reachable(c, s) && s.mp == HLock(w) && s.wk.Get(w) == FirstSignal
    requires s.owner == map[StartLock(w) := Thread(w), TurnLock(w) := Thread(w)]
    ensures Reachable(c, t) && t == s.(wk := s.wk.Set(w, Parked), owner := map[])
  {
    hide After;
    t := Move(c, s, Thread(w));
    assert t == s.(wk := s.wk.Set(w, FirstUnlockMain));
    t := Move(c, t, Thread(w));
    assert t.owner == map[TurnLock(w) := Thread(w)] && t == s.(wk := s.wk.Set(w, Wait), owner := t.owner);
    t := Parks(c, t, w);
  }

  lemma Parks(c: Race, s: State, w: Worker) returns (t: State)
    requires Reachable(c, s) && s.wk.Get(w) == Wait && s.owner == map[TurnLock(w) := Thread(w)]
    ensures Reachable(c, t) && t == s.(wk := s.wk.Set(w, Parked), owner := map[])
  {
    hide After;
    t := Move(c, s, Thread(w));
    assert t.owner == map[];
  }

  lemma IsSeen(c: Race, s: State, w: Worker) returns (t: State)
    requires Reachable(c, s) && s.mp == HLock(w) && s.reached.Get(w) && s.owner == map[]
    ensures Reachable(c, t)
    ensures t == s.(mp := match w case Randomizer => Create(Turtle) case Turtle => Create(Hare)
        case Hare => CreateReport)
  {
    t := Move(c, s, Main);
    t := Move(c, t, Main);
    t := Move(c, t, Main);
    assert t.owner == map[];
  }

  lemma Handshake(c: Race, s: State, w: Worker) returns (t: State)
    requires Reachable(c, s) && s.mp == Create(w) && s.owner == map[] && !s.reached.Get(w) && s.g.open
    ensures Reachable(c, t)
    ensures t == s.(mp := match w case Randomizer => Create(Turtle) case Turtle => Create(Hare)
        case Hare => CreateReport,
                    wk := s.wk.Set(w, Parked), reached := s.reached.Set(w, true),
                    g := if w == Hare then s.g.(sleepCounter := c.hareSleepTime) else s.g)
  {
    t := Starts(c, s, w);
    t := ComesForward(c, t, w);
    t := GoesToWait(c, t, w);
    t := IsSeen(c, t, w);
  }

  /** The first round can begin with every worker waiting. */
  lemma FirstRoundBegins(c: Race) returns (t: State)
    ensures Reachable(c, t) && RoundBegins(t) && t.g == Ticked(StartingLine(c))
  {
    var s := Initial(c);
    assert After(c, []) == s;
    t := Handshake(c, s, Randomizer);
    t := Handshake(c, t, Turtle);
    t := Handshake(c, t, Hare);
    t := Move(c, t, Main);
    t := Ticks(c, t);
  }

  lemma NextRound(c: Race, s: State) returns (t: State)
    requires Reachable(c, s) && RoundBegins(s) && Turns(c, s.g).open
    ensures Reachable(c, t) && RoundBegins(t) && t.g == Ticked(Turns(c, s.g))
  {
    t := Round(c, s);
    t := ReportMoves(c, t);
    t := Ticks(c, t);
  }

  lemma SimRound(c: Race, n: nat)
    requires n > 0 && Sim(c, n - 1).open
    ensures Sim(c, n) == Turns(c, Ticked(Sim(c, n - 1)))
  {
  }

  /** As long as the race is open, another round can begin. */
  lemma {:induction false} RoundCanBegin(c: Race, n: nat, g: Globals) returns (t: State)
    requires g == Sim(c, n) && g.open
    ensures Reachable(c, t) && RoundBegins(t) && t.g == Ticked(g)
  {
    hide After;
    if n == 0 {
      t := FirstRoundBegins(c);
    } else {
      SimOpenBefore(c, n - 1, n);
      SimRound(c, n);
      t := RoundCanBegin(c, n - 1, Sim(c, n - 1));
      t := NextRound(c, t);
    }
  }

  /** Report sends worker w its final signal. */
  lemma FinalSignal(c: Race, s: State, w: Worker) returns (t: State)
    requires Reachable(c, s) && s.rp == ELock(w) && s.mp == Join(Randomizer)
    requires forall v :: Resting(s.wk.Get(v))
    ensures Reachable(c, t) && t.rp == ReporterNext(EUnlock(w), false) && t.g == s.g && t.mp == s.mp
    ensures t.wk == Notify(s.wk, w)
  {
    hide After;
    ReportCanLock(c, s);
    t := ReportMoves(c, s);
    t := ReportMoves(c, t);
    t := ReportMoves(c, t);
  }

  /** A closed race: Report dismisses worker w, which ends if it was waiting. */
  lemma Dismisses(c: Race, s: State, w: Worker) returns (t: State)
    requires Reachable(c, s) && s.rp == ELock(w) && s.mp == Join(Randomizer) && !s.g.open
    requires forall v :: s.wk.Get(v) in {Parked, Exited}
    ensures Reachable(c, t) && t.rp == ReporterNext(EUnlock(w), false) && t.g == s.g && t.mp == s.mp
    ensures t.wk.Get(w) == Exited && forall v :: v != w ==> t.wk.Get(v) == s.wk.Get(v)
  {
    t := FinalSignal(c, s, w);
    if s.wk.Get(w) == Parked {
      t := PlaysTurn(c, t, w);
      t := Settles(c, t, w);
    }
  }

  lemma Joins(c: Race, s: State) returns (t: State)
    requires Reachable(c, s) && s.mp == Join(Randomizer) && s.rp == RExited && forall v :: s.wk.Get(v) == Exited
    ensures Reachable(c, t) && t.mp == Returned(s.g.winner)
  {
    t := Move(c, s, Main);
    t := Move(c, t, Main);
    t := Move(c, t, Main);
    t := Move(c, t, Main);
  }

  lemma LastRound(c: Race, s: State) returns (t: State)
    requires Reachable(c, s) && RoundBegins(s) && !Turns(c, s.g).open
    ensures Reachable(c, t) && t.mp == Returned(Turns(c, s.g).winner)
  {
    hide After, Turns;
    t := Round(c, s);
    t := ReportMoves(c, t);
    t := Closes(c, t);
  }

  /** Report dismisses the workers of a closed race, and init returns. */
  lemma Closes(c: Race, s: State) returns (t: State)
    requires Reachable(c, s) && s.rp == ELock(Randomizer) && s.mp == Join(Randomizer) && !s.g.open
    requires s.wk.r in {Parked, Exited} && s.wk.t in {Parked, Exited} && s.wk.h in {Parked, Exited}
    ensures Reachable(c, t) && t.mp == Returned(s.g.winner)
  {
    hide After;
    t := s;
    t := Dismisses(c, t, Randomizer);
    t := Dismisses(c, t, Turtle);
    t := Dismisses(c, t, Hare);
    t := ReportMoves(c, t);
    t := Joins(c, t);
  }

  /** Every race that ends has a schedule under which init returns, and returns its winner. */
  lemma SomeScheduleReturnsWinner(c: Race, n: nat, x: char) returns (schedule: seq<Agent>)
    requires WinsAfter(c, n, x)
    ensures After(c, schedule).mp == Returned(x)
  {
    SimRound(c, n);
    var s := RoundCanBegin(c, n - 1, Sim(c, n - 1));
    s := LastRound(c, s);
    schedule :| After(c, schedule) == s;
  }
}
