/** What every step of the race machine keeps, and what follows: lock discipline, mutual exclusion
    of the action sections, and refinement of the sequential simulation. */
module RaceSafety {
  import opened Wrappers
  import opened RaceSequential
  import opened RaceThreads

  // ------------------------------------------------------------------ lock ownership

  /** A worker holds l while its program counter is between acquiring and releasing it. */
  predicate WorkerHolds(w: Worker, pc: WorkerPc, l: Lock) {
    match l
    case StartLock(v) => v == w && pc in {FirstSetReached, FirstLockTurn, FirstSignal, FirstUnlockMain}
    case TurnLock(v) =>
      v == w && (pc.Act? || pc in {FirstSignal, FirstUnlockMain, Wait, LockClock, ReadClock, UnlockClock, Signal,
          UnlockTurn})
    case ClockLock => pc in {ReadClock, UnlockClock}
    case TurtleDistLock =>
      pc.Act? && w != Randomizer
      && (Moving(pc.a) || pc.a in {UnlockTurtle, UnlockHare, Lead, LockHare, Wake})
    case HareDistLock => pc.Act? && w == Hare && (Moving(pc.a) || pc.a == UnlockHare)
  }

  predicate Moving(a: ActPc) {
    a.Add? || a.Compare? || a.Zero? || a.Claim? || a.Clip? || a.Close?
  }

  predicate ReporterHolds(rp: ReporterPc, l: Lock) {
    match l
    case ClockLock => rp in {RTick, RUnlockClock}
    case TurnLock(w) => rp in {RSignal(w), RWait(w), RUnlock(w), ESignal(w), EUnlock(w)}
    case _ => false
  }

  predicate MainHolds(mp: MainPc, l: Lock) {
    l.StartLock? && mp in {HTest(l.w), HWait(l.w), HUnlock(l.w)}
  }

  predicate Holds(s: State, a: Agent, l: Lock) {
    match a
    case Thread(w) => WorkerHolds(w, s.wk.Get(w), l)
    case Reporter => ReporterHolds(s.rp, l)
    case Main => MainHolds(s.mp, l)
  }

  predicate Owns(s: State, a: Agent, l: Lock) {
    l in s.owner && s.owner[l] == a
  }

  ghost predicate OwnerInv(s: State) {
    forall a, l :: Owns(s, a, l) <==> Holds(s, a, l)
  }

  /** The statements that occur in worker w's own function. */
  predicate Legal(w: Worker, a: ActPc) {
    match w
    case Randomizer => a.Test? || a.Match? || a.Advance? || Moving(a)
    case Turtle => a.Test? || a.Tie? || a.LockTurtle? || a.UnlockTurtle? || (Moving(a) && !a.Zero?)
    case Hare => !a.Tie? && !a.Match? && !a.Zero? && !a.Advance?
  }

  ghost predicate LegalInv(s: State) {
    forall w: Worker :: s.wk.Get(w).Act? ==> Legal(w, s.wk.Get(w).a)
  }

  // ------------------------------------------------------------------ start-up handshake

  function Number(w: Worker): nat {
    match w case Randomizer => 0 case Turtle => 1 case Hare => 2
  }

  /** How many workers init has finished the start-up handshake with. */
  function Greeted(m: MainPc): nat {
    match m
    case Create(w) => Number(w)
    case HLock(w) => Number(w)
    case HTest(w) => Number(w)
    case HWait(w) => Number(w)
    case HParked(w) => Number(w)
    case HRelock(w) => Number(w)
    case HUnlock(w) => Number(w)
    case _ => 3
  }

  predicate Fresh(pc: WorkerPc) {
    pc in {NotCreated, Start, Loop, TestReached, FirstLockMain, FirstSetReached}
  }

  /** How far worker w and init have got with each other. */
  predicate Greeting(s: State, w: Worker) {
    var pc := s.wk.Get(w);
    && (pc == NotCreated <==> Greeted(s.mp) < Number(w) || s.mp == Create(w))
    && (!s.reached.Get(w) ==> Fresh(pc))
    && (pc in {NotCreated, Start, FirstLockMain, FirstSetReached} ==> !s.reached.Get(w))
    && (s.mp in {HUnlock(w), HRelock(w)} ==> s.reached.Get(w))
    && (s.mp == HWait(w) ==> !s.reached.Get(w))
    && (s.mp == HParked(w) ==> pc in {FirstLockTurn, FirstSignal} || !s.reached.Get(w))
    && (Number(w) < Greeted(s.mp) ==> s.reached.Get(w) && pc !in {FirstLockTurn, FirstSignal, FirstUnlockMain})
  }

  ghost predicate HandshakeInv(s: State) {
    && (s.rp == RNotCreated <==> Greeted(s.mp) < 3 || s.mp == CreateReport)
    && (forall w :: Greeting(s, w))
  }

  /** Worker w's turn in the current round is still to come. */
  predicate Before(w: Worker, rp: ReporterPc) {
    match rp
    case RUnlockClock => true
    case RLock(v) => Number(v) <= Number(w)
    case RSignal(v) => Number(v) <= Number(w)
    case RWait(v) => Number(v) < Number(w)
    case RParked(v) => Number(v) < Number(w)
    case RRelock(v) => Number(v) < Number(w)
    case RUnlock(v) => Number(v) < Number(w)
    case RPrint => w != Randomizer
    case _ => false
  }

  /** Up to its first turn worker w stays where the handshake left it. */
  predicate FirstRound(s: State, w: Worker) {
    var pc := s.wk.Get(w);
    && (s.rp == RNotCreated ==>
          pc in {Wait, Parked, FirstLockTurn, FirstSignal, FirstUnlockMain} || (Fresh(pc) && !s.reached.Get(w)))
    && (s.rp != RNotCreated && (s.g.tick == -1 || (s.g.tick == 0 && Before(w, s.rp))) ==> pc in {Wait, Parked})
  }

  ghost predicate FirstRoundInv(s: State) {
    && s.g.tick >= -1
    && (s.rp == RNotCreated ==> s.g.tick == -1)
    && (s.g.tick == -1 ==> s.rp in {RNotCreated, RLoop, RLockClock, RTick} && s.g.open)
    && (forall w :: FirstRound(s, w))
  }

  // ------------------------------------------------------------------ the turn token

  /** From being woken up to telling Report that the turn is over. */
  predicate InTurn(pc: WorkerPc) {
    pc.Act? || pc in {Relock, LockClock, ReadClock, UnlockClock, Signal}
  }

  predicate Closing(rp: ReporterPc) {
    rp.ELock? || rp.ESignal? || rp.EUnlock? || rp == RExited
  }

  /** Report has sent worker w its final signal. */
  predicate Dismissed(w: Worker, rp: ReporterPc) {
    match rp
    case ELock(v) => Number(w) < Number(v)
    case ESignal(v) => Number(w) < Number(v)
    case EUnlock(v) => Number(w) <= Number(v)
    case RLoop => true
    case RExited => true
    case _ => false
  }

  predicate TurnToken(s: State, w: Worker) {
    var pc := s.wk.Get(w);
    || !InTurn(pc)
    || (s.rp == RWait(w) && pc == Relock)
    || s.rp == RParked(w)
    || (Dismissed(w, s.rp) && !s.g.open && (pc.Act? ==> pc.a in {Test, Tie}))
  }

  ghost predicate TokenInv(s: State) {
    && (forall w :: TurnToken(s, w))
    && (s.rp in {RLockClock, RTick} ==> s.g.open)
    && (Closing(s.rp) ==> !s.g.open)
  }

  /** A worker that has read the clock has the current time. */
  ghost predicate ClockInv(s: State) {
    forall w: Worker :: s.wk.Get(w).Act? || s.wk.Get(w) == UnlockClock ==> s.curr.Get(w) == s.g.tick
  }

  // ------------------------------------------------------------------ refinement

  function Rank(a: ActPc): nat {
    match a
    case Test => 14
    case Sleepy => 13
    case Match => 13
    case LockTurtle => 12
    case Lead => 11
    case LockHare => 10
    case Add(_, _) => 9
    case Compare(_) => 8
    case Zero(_) => 7
    case Claim(_) => 7
    case Clip(_) => 6
    case Close => 5
    case UnlockHare => 4
    case Wake => 3
    case _ => 2
  }

  /** What is left of an action section, run to its end. */
  function Rest(c: Race, w: Worker, a: ActPc, g: Globals, now: int): Globals
    decreases Rank(a)
  {
    match NextAct(c, w, a, g, now)
    case None => Effect(c, a, g)
    case Some(b) => Rest(c, w, b, Effect(c, a, g), now)
  }

  function TurnOf(c: Race, w: Worker, g: Globals): Globals {
    match w
    case Randomizer => RandomizerTurn(c, g, g.tick)
    case Turtle => TurtleTurn(c, g)
    case Hare => HareTurn(c, g)
  }

  /** The variables when worker w has finished the turn it is to take or is taking. */
  function Completed(c: Race, s: State, w: Worker): Globals {
    match s.wk.Get(w)
    case Act(a) => Rest(c, w, a, s.g, s.curr.Get(w))
    case Signal => s.g
    case _ => TurnOf(c, w, s.g)
  }

  /** The turns of the current round that follow worker w's. */
  function AfterTurn(c: Race, w: Worker, g: Globals): Globals {
    match w
    case Randomizer => HareTurn(c, TurtleTurn(c, ReportLine(c, g)))
    case Turtle => HareTurn(c, g)
    case Hare => g
  }

  /** The variables at the end of the current round. */
  function Future(c: Race, s: State): Globals {
    match s.rp
    case RNotCreated => if s.wk.h in {NotCreated, Start} then s.g.(sleepCounter := c.hareSleepTime) else s.g
    case RUnlockClock => Turns(c, s.g)
    case RLock(w) => AfterTurn(c, w, TurnOf(c, w, s.g))
    case RSignal(w) => AfterTurn(c, w, TurnOf(c, w, s.g))
    case RWait(w) => AfterTurn(c, w, Completed(c, s, w))
    case RParked(w) => AfterTurn(c, w, Completed(c, s, w))
    case RRelock(w) => AfterTurn(c, w, s.g)
    case RUnlock(w) => AfterTurn(c, w, s.g)
    case RPrint => AfterTurn(c, Randomizer, s.g)
    case _ => s.g
  }

  ghost predicate FutureInv(c: Race, s: State) {
    s.g.tick >= -1 && Future(c, s) == Sim(c, s.g.tick + 1)
  }

  lemma Exclusion(s: State, a: Agent, b: Agent, l: Lock)
    requires OwnerInv(s) && Holds(s, a, l) && Holds(s, b, l)
    ensures a == b
  {
    assert Owns(s, a, l) && Owns(s, b, l);
  }

  // Ownership: a statement changes what its own thread holds by the lock it takes or gives.

  lemma WorkerTable(c: Race, w: Worker, pc: WorkerPc, l: Lock, g: Globals, reached: bool, now: int)
    requires pc.Act? ==> Legal(w, pc.a)
    ensures WorkerHolds(w, WorkerNext(c, w, pc, g, reached, now), l)
         <==> (WorkerHolds(w, pc, l) || WorkerTakes(w, pc) == Some(l)) && WorkerGives(w, pc) != Some(l)
    ensures WorkerGives(w, pc).Some? ==> WorkerTakes(w, pc) == None && WorkerHolds(w, pc, WorkerGives(w, pc).value)
  {
  }

  lemma LegalNext(c: Race, w: Worker, pc: WorkerPc, g: Globals, reached: bool, now: int)
    requires pc.Act? ==> Legal(w, pc.a)
    ensures WorkerNext(c, w, pc, g, reached, now).Act? ==> Legal(w, WorkerNext(c, w, pc, g, reached, now).a)
  {
  }

  lemma ReporterTable(rp: ReporterPc, l: Lock, open: bool)
    ensures ReporterHolds(ReporterNext(rp, open), l)
         <==> (ReporterHolds(rp, l) || ReporterTakes(rp) == Some(l)) && ReporterGives(rp) != Some(l)
    ensures ReporterGives(rp).Some? ==> ReporterTakes(rp) == None && ReporterHolds(rp, ReporterGives(rp).value)
  {
  }

  lemma MainTable(s: State, l: Lock)
    ensures MainHolds(MainNext(s), l)
         <==> (MainHolds(s.mp, l) || MainTakes(s.mp) == Some(l)) && MainGives(s.mp) != Some(l)
    ensures MainGives(s.mp).Some? ==> MainTakes(s.mp) == None && MainHolds(s.mp, MainGives(s.mp).value)
  {
  }

  /** What an agent holds after a step of agent a. */
  lemma HoldsAfter(c: Race, s: State, a: Agent, b: Agent, l: Lock)
    requires CanStep(s, a) && LegalInv(s) && HandshakeInv(s)
    ensures Holds(Step(c, s, a), b, l)
         <==> (Holds(s, b, l) || (a == b && Takes(s, a) == Some(l))) && !(a == b && Gives(s, a) == Some(l))
  {
    match a
    case Main =>
      MainTable(s, l);
      if s.mp.Create? {
        assert Greeting(s, s.mp.w);
      }
    case Reporter => ReporterTable(s.rp, l, s.g.open);
    case Thread(w) => WorkerTable(c, w, s.wk.Get(w), l, s.g, s.reached.Get(w), s.curr.Get(w));
  }

  lemma GivesHeld(c: Race, s: State, a: Agent)
    requires CanStep(s, a) && LegalInv(s)
    ensures Gives(s, a).Some? ==> Takes(s, a) == None && Holds(s, a, Gives(s, a).value)
  {
    match a
    case Main => MainTable(s, ClockLock);
    case Reporter => ReporterTable(s.rp, ClockLock, s.g.open);
    case Thread(w) => WorkerTable(c, w, s.wk.Get(w), ClockLock, s.g, s.reached.Get(w), s.curr.Get(w));
  }

  lemma OwnsAfter(c: Race, s: State, a: Agent, b: Agent, l: Lock)
    requires CanStep(s, a) && OwnerInv(s) && LegalInv(s)
    ensures Owns(Step(c, s, a), b, l)
         <==> (Owns(s, b, l) || (a == b && Takes(s, a) == Some(l))) && !(a == b && Gives(s, a) == Some(l))
  {
    GivesHeld(c, s, a);
    assert Step(c, s, a).owner == Owners(s, a);
    if Gives(s, a).Some? {
      assert Owns(s, a, Gives(s, a).value);
    }
  }

  lemma OwnerStep(c: Race, s: State, a: Agent)
    requires CanStep(s, a) && OwnerInv(s) && LegalInv(s) && HandshakeInv(s)
    ensures OwnerInv(Step(c, s, a))
  {
    forall b, l ensures Owns(Step(c, s, a), b, l) <==> Holds(Step(c, s, a), b, l) {
      HoldsAfter(c, s, a, b, l);
      OwnsAfter(c, s, a, b, l);
      assert Owns(s, b, l) <==> Holds(s, b, l);
    }
  }

  lemma LegalStep(c: Race, s: State, a: Agent)
    requires CanStep(s, a) && LegalInv(s)
    ensures LegalInv(Step(c, s, a))
  {
    forall w: Worker | Step(c, s, a).wk.Get(w).Act? ensures Legal(w, Step(c, s, a).wk.Get(w).a) {
      if a == Thread(w) {
        LegalNext(c, w, s.wk.Get(w), s.g, s.reached.Get(w), s.curr.Get(w));
      }
    }
  }

  // The handshake.

  lemma GreetingMain(c: Race, s: State, w: Worker)
    requires CanStep(s, Main) && OwnerInv(s) && HandshakeInv(s)
    ensures Greeting(MainStep(s), w)
  {
    assert Greeting(s, w);
    if Holds(s, Main, StartLock(w)) && Holds(s, Thread(w), StartLock(w)) {
      Exclusion(s, Main, Thread(w), StartLock(w));
    }
  }

  lemma GreetingWorker(c: Race, s: State, w: Worker)
    requires CanStep(s, Thread(w)) && OwnerInv(s) && HandshakeInv(s) && FirstRoundInv(s)
    ensures Greeting(WorkerStep(c, s, w), w)
  {
    assert Greeting(s, w);
    if Holds(s, Main, StartLock(w)) && Holds(s, Thread(w), StartLock(w)) {
      Exclusion(s, Main, Thread(w), StartLock(w));
    }
  }

  lemma GreetingOther(c: Race, s: State, u: Worker, w: Worker)
    requires CanStep(s, Thread(u)) && HandshakeInv(s) && u != w
    ensures Greeting(WorkerStep(c, s, u), w)
  {
    assert Greeting(s, w) && Greeting(s, u);
  }

  lemma HandshakeStep(c: Race, s: State, a: Agent)
    requires CanStep(s, a) && OwnerInv(s) && HandshakeInv(s) && FirstRoundInv(s)
    ensures HandshakeInv(Step(c, s, a))
  {
    forall w ensures Greeting(Step(c, s, a), w) {
      match a
      case Main => GreetingMain(c, s, w);
      case Reporter => assert Greeting(s, w);
      case Thread(u) => if u == w { GreetingWorker(c, s, w); } else { GreetingOther(c, s, u, w); }
    }
  }

  // The first round.

  lemma FirstRoundMain(c: Race, s: State, w: Worker)
    requires CanStep(s, Main) && HandshakeInv(s) && FirstRoundInv(s)
    ensures FirstRound(MainStep(s), w)
  {
    assert Greeting(s, w) && FirstRound(s, w);
  }

  lemma FirstRoundReporter(c: Race, s: State, w: Worker)
    requires CanStep(s, Reporter) && FirstRoundInv(s)
    ensures FirstRound(ReporterStep(c, s), w)
  {
    assert FirstRound(s, w);
  }

  lemma FirstRoundWorker(c: Race, s: State, u: Worker, w: Worker)
    requires CanStep(s, Thread(u)) && HandshakeInv(s) && FirstRoundInv(s)
    ensures FirstRound(WorkerStep(c, s, u), w)
  {
    assert Greeting(s, w) && FirstRound(s, w);
  }

  // The turn token.

  lemma TurnTokenMain(c: Race, s: State, w: Worker)
    requires CanStep(s, Main) && HandshakeInv(s) && TokenInv(s)
    ensures TurnToken(MainStep(s), w)
  {
    assert TurnToken(s, w);
  }

  lemma TurnTokenReporter(c: Race, s: State, w: Worker)
    requires CanStep(s, Reporter) && TokenInv(s) && OwnerInv(s)
    ensures TurnToken(ReporterStep(c, s), w)
  {
    assert TurnToken(s, w);
  }

  lemma TurnTokenWorker(c: Race, s: State, u: Worker, w: Worker)
    requires CanStep(s, Thread(u)) && TokenInv(s) && OwnerInv(s)
    ensures TurnToken(WorkerStep(c, s, u), w)
  {
    assert TurnToken(s, w) && TurnToken(s, u);
    if s.rp == RWait(u) {
      assert Holds(s, Reporter, TurnLock(u));
      assert Owns(s, Reporter, TurnLock(u));
    }
  }

  lemma FirstRoundStep(c: Race, s: State, a: Agent)
    requires CanStep(s, a) && HandshakeInv(s) && FirstRoundInv(s) && TokenInv(s)
    ensures FirstRoundInv(Step(c, s, a))
  {
    forall w ensures FirstRound(Step(c, s, a), w) {
      match a
      case Main => FirstRoundMain(c, s, w);
      case Reporter => FirstRoundReporter(c, s, w);
      case Thread(u) => FirstRoundWorker(c, s, u, w);
    }
    if a.Thread? {
      assert TurnToken(s, a.w);
    }
  }

  lemma TokenStep(c: Race, s: State, a: Agent)
    requires CanStep(s, a) && HandshakeInv(s) && TokenInv(s) && OwnerInv(s)
    ensures TokenInv(Step(c, s, a))
  {
    forall w ensures TurnToken(Step(c, s, a), w) {
      match a
      case Main => TurnTokenMain(c, s, w);
      case Reporter => TurnTokenReporter(c, s, w);
      case Thread(u) => TurnTokenWorker(c, s, u, w);
    }
    if a.Thread? {
      assert TurnToken(s, a.w);
    }
  }

  lemma ClockStep(c: Race, s: State, a: Agent)
    requires CanStep(s, a) && TokenInv(s) && ClockInv(s)
    ensures ClockInv(Step(c, s, a))
  {
    forall w: Worker | Step(c, s, a).wk.Get(w).Act? || Step(c, s, a).wk.Get(w) == UnlockClock
      ensures Step(c, s, a).curr.Get(w) == Step(c, s, a).g.tick
    {
      assert TurnToken(s, w);
    }
  }

  // Refinement: no step changes where the current round is going.

  /** Statement by statement, an action section does what the sequential turn does. */
  lemma RestIsTurn(c: Race, w: Worker, g: Globals)
    ensures Rest(c, w, Test, g, g.tick) == TurnOf(c, w, g)
  {
    if g.open {
      match w
      case Randomizer => RestOfRandomizer(c, g);
      case Turtle => RestOfTurtle(c, g);
      case Hare => RestOfHare(c, g);
    } else {
      assert NextAct(c, w, Test, g, g.tick) == if w == Turtle then Some(Tie) else None;
    }
  }

  /** From the addition on: move, and close the race at the finishing line. */
  lemma RestOfMove(c: Race, w: Worker, p: Player, d: int, g: Globals, now: int)
    ensures Rest(c, w, Add(p, d), g, now)
         == Rest(c, w, AfterMove(w), if w == Randomizer then Repositioned(c, g, p, d) else Moved(c, g, p, d), now)
  {
    var h := Effect(c, Add(p, d), g);
    assert Rest(c, w, Add(p, d), g, now) == Rest(c, w, Compare(p), h, now);
    if w == Randomizer && Distance(h, p) < 0 {
      assert Rest(c, w, Compare(p), h, now) == Rest(c, w, Zero(p), h, now);
    } else if Distance(h, p) >= c.finish {
      RestOfWinner(c, w, p, h, now);
    }
  }

  /** A player who has reached the finishing line wins. */
  lemma RestOfWinner(c: Race, w: Worker, p: Player, h: Globals, now: int)
    requires Distance(h, p) >= c.finish && !(w == Randomizer && Distance(h, p) < 0)
    ensures Rest(c, w, Compare(p), h, now)
         == Rest(c, w, AfterMove(w), WithDistance(h, p, c.finish).(winner := Letter(p), open := false), now)
  {
    var i := Effect(c, Claim(p), h);
    var j := Effect(c, Clip(p), i);
    assert Rest(c, w, Compare(p), h, now) == Rest(c, w, Claim(p), h, now) == Rest(c, w, Clip(p), i, now);
    assert Rest(c, w, Clip(p), i, now) == Rest(c, w, Close, j, now);
    assert Rest(c, w, Close, j, now) == Rest(c, w, AfterMove(w), Effect(c, Close, j), now);
  }

  lemma RestOfTurtle(c: Race, g: Globals)
    requires g.open
    ensures Rest(c, Turtle, Test, g, g.tick) == TurtleTurn(c, g)
  {
    assert Rest(c, Turtle, Test, g, g.tick) == Rest(c, Turtle, LockTurtle, g, g.tick)
        == Rest(c, Turtle, Add(Tortoise, c.tortoiseSpeed), g, g.tick);
    RestOfMove(c, Turtle, Tortoise, c.tortoiseSpeed, g, g.tick);
  }

  lemma RestOfHareRunning(c: Race, g: Globals)
    ensures Rest(c, Hare, LockHare, g, g.tick) == Moved(c, g, Rabbit, c.hareSpeed).(sleepCounter := 0)
  {
    hide Moved;
    assert Rest(c, Hare, LockHare, g, g.tick) == Rest(c, Hare, Add(Rabbit, c.hareSpeed), g, g.tick);
    RestOfMove(c, Hare, Rabbit, c.hareSpeed, g, g.tick);
    RestOfWaking(c, Moved(c, g, Rabbit, c.hareSpeed), g.tick);
  }

  lemma RestOfWaking(c: Race, h: Globals, now: int)
    ensures Rest(c, Hare, UnlockHare, h, now) == h.(sleepCounter := 0)
  {
    assert Rest(c, Hare, UnlockHare, h, now) == Rest(c, Hare, Wake, h, now);
  }

  lemma RestOfHare(c: Race, g: Globals)
    requires g.open
    ensures Rest(c, Hare, Test, g, g.tick) == HareTurn(c, g)
  {
    assert Rest(c, Hare, Test, g, g.tick) == Rest(c, Hare, Sleepy, g, g.tick);
    if g.sleepCounter != c.hareSleepTime {
      assert Rest(c, Hare, Sleepy, g, g.tick) == Rest(c, Hare, Nap, g, g.tick);
    } else {
      assert Rest(c, Hare, Sleepy, g, g.tick) == Rest(c, Hare, LockTurtle, g, g.tick) == Rest(c, Hare, Lead, g, g.tick);
      if g.hare - g.turtle <= c.sleepLead {
        RestOfHareRunning(c, g);
      } else {
        assert Rest(c, Hare, Lead, g, g.tick) == Rest(c, Hare, Wake, g, g.tick) == g.(sleepCounter := 0);
      }
    }
  }

  lemma RestOfRandomizer(c: Race, g: Globals)
    requires g.open
    ensures Rest(c, Randomizer, Test, g, g.tick) == RandomizerTurn(c, g, g.tick)
  {
    assert Rest(c, Randomizer, Test, g, g.tick) == Rest(c, Randomizer, Match, g, g.tick);
    if g.index < |c.reposition| && c.reposition[g.index].time == g.tick {
      var r := c.reposition[g.index];
      if r.player == 'H' {
        RestOfMove(c, Randomizer, Rabbit, r.distance, g, g.tick);
      } else if r.player == 'T' {
        RestOfMove(c, Randomizer, Tortoise, r.distance, g, g.tick);
      }
    }
  }

  lemma FutureMain(c: Race, s: State)
    requires CanStep(s, Main) && HandshakeInv(s)
    ensures Future(c, MainStep(s)) == Future(c, s)
  {
    assert Greeting(s, Hare);
  }

  lemma FutureTick(c: Race, s: State)
    requires s.rp == RTick && TokenInv(s) && FutureInv(c, s)
    ensures FutureInv(c, ReporterStep(c, s))
  {
    assert Sim(c, s.g.tick + 2) == Turns(c, Ticked(s.g));
  }

  lemma FutureReporter(c: Race, s: State)
    requires CanStep(s, Reporter) && s.rp != RTick && TokenInv(s)
    ensures Future(c, ReporterStep(c, s)) == Future(c, s)
  {
    hide TurtleTurn, HareTurn, RandomizerTurn;
    match s.rp
    case RSignal(w) => assert TurnToken(s, w);
    case RUnlockClock => assert Turns(c, s.g) == AfterTurn(c, Randomizer, TurnOf(c, Randomizer, s.g));
    case RUnlock(w) => assert Future(c, s) == AfterTurn(c, w, s.g);
    case RPrint => assert Future(c, s) == AfterTurn(c, Turtle, TurnOf(c, Turtle, ReportLine(c, s.g)));
    case _ =>
  }

  /** A step inside the turn does not change how the turn ends. */
  lemma CompletedStep(c: Race, s: State, w: Worker)
    requires CanStep(s, Thread(w)) && ClockInv(s) && InTurn(s.wk.Get(w)) && s.wk.Get(w) != Signal
    ensures Completed(c, WorkerStep(c, s, w), w) == Completed(c, s, w)
  {
    match s.wk.Get(w)
    case UnlockClock => RestIsTurn(c, w, s.g);
    case Act(a) =>
      var t := WorkerStep(c, s, w);
      assert t.g == Effect(c, a, s.g) && t.curr == s.curr;
      assert t.wk.Get(w) == var n := NextAct(c, w, a, s.g, s.curr.Get(w)); if n == None then Signal else Act(n.value);
    case _ =>
  }

  lemma FutureInTurn(c: Race, s: State, w: Worker)
    requires CanStep(s, Thread(w)) && ClockInv(s) && InTurn(s.wk.Get(w)) && s.rp == RParked(w)
    ensures Future(c, WorkerStep(c, s, w)) == Future(c, s)
  {
    if s.wk.Get(w) != Signal {
      CompletedStep(c, s, w);
    }
  }

  /** A worker woken up by its final signal finds the race closed and leaves everything as it is. */
  lemma FutureDismissed(c: Race, s: State, w: Worker)
    requires CanStep(s, Thread(w)) && InTurn(s.wk.Get(w)) && Dismissed(w, s.rp) && TurnToken(s, w) && FutureInv(c, s)
    ensures Future(c, WorkerStep(c, s, w)) == Future(c, s)
  {
    SimSettled(c, s.g.tick + 1);
  }

  lemma FutureOutsideTurn(c: Race, s: State, w: Worker)
    requires CanStep(s, Thread(w)) && HandshakeInv(s) && !InTurn(s.wk.Get(w))
    ensures Future(c, WorkerStep(c, s, w)) == Future(c, s)
  {
    assert Greeting(s, w);
  }

  lemma FutureWorker(c: Race, s: State, w: Worker)
    requires CanStep(s, Thread(w)) && OwnerInv(s) && HandshakeInv(s) && TokenInv(s) && ClockInv(s) && FutureInv(c, s)
    ensures Future(c, WorkerStep(c, s, w)) == Future(c, s)
  {
    assert TurnToken(s, w);
    if s.rp == RWait(w) {
      assert Holds(s, Reporter, TurnLock(w));
      assert Owns(s, Reporter, TurnLock(w));
    }
    if !InTurn(s.wk.Get(w)) {
      FutureOutsideTurn(c, s, w);
    } else if s.rp == RParked(w) {
      FutureInTurn(c, s, w);
    } else {
      FutureDismissed(c, s, w);
    }
  }

  // ------------------------------------------------------------------ joining

  /** init has joined worker w. */
  predicate Joined(m: MainPc, w: Worker) {
    m == JoinReport || m.Returned? || (m.Join? && Number(w) < Number(m.w))
  }

  ghost predicate JoinInv(s: State) {
    && (forall w :: Joined(s.mp, w) ==> s.wk.Get(w) == Exited)
    && (s.mp.Returned? ==> s.rp == RExited && s.mp.x == s.g.winner)
  }

  lemma JoinStep(c: Race, s: State, a: Agent)
    requires CanStep(s, a) && JoinInv(s) && HandshakeInv(s)
    ensures JoinInv(Step(c, s, a))
  {
    forall w | Joined(Step(c, s, a).mp, w) ensures Step(c, s, a).wk.Get(w) == Exited {
      assert Greeting(s, w);
    }
  }

  // ------------------------------------------------------------------ every reachable state

  ghost predicate Inv(c: Race, s: State) {
    && OwnerInv(s) && LegalInv(s) && HandshakeInv(s) && FirstRoundInv(s)
    && TokenInv(s) && ClockInv(s) && FutureInv(c, s) && JoinInv(s)
  }

  lemma InvInitial(c: Race)
    ensures Inv(c, Initial(c))
  {
    assert Future(c, Initial(c)) == StartingLine(c);
  }

  lemma InvStep(c: Race, s: State, a: Agent)
    requires Inv(c, s)
    ensures Inv(c, Step(c, s, a))
  {
    if CanStep(s, a) {
      OwnerStep(c, s, a);
      LegalStep(c, s, a);
      HandshakeStep(c, s, a);
      FirstRoundStep(c, s, a);
      TokenStep(c, s, a);
      ClockStep(c, s, a);
      JoinStep(c, s, a);
      FutureStep(c, s, a);
    }
  }

  lemma FutureStep(c: Race, s: State, a: Agent)
    requires CanStep(s, a) && OwnerInv(s) && HandshakeInv(s) && TokenInv(s) && ClockInv(s) && FutureInv(c, s)
    ensures FutureInv(c, Step(c, s, a))
  {
    match a
    case Main => FutureMain(c, s);
    case Thread(w) =>
      FutureWorker(c, s, w);
      TickKept(c, s, w);
    case Reporter => if s.rp == RTick { FutureTick(c, s); } else { FutureReporter(c, s); }
  }

  lemma TickKept(c: Race, s: State, w: Worker)
    ensures WorkerStep(c, s, w).g.tick == s.g.tick
  {
  }

  lemma {:induction false} InvRun(c: Race, s: State, schedule: seq<Agent>)
    requires Inv(c, s)
    ensures Inv(c, Run(c, s, schedule))
    decreases |schedule|
  {
    if schedule != [] {
      InvStep(c, s, schedule[0]);
      InvRun(c, Step(c, s, schedule[0]), schedule[1..]);
    }
  }

  /** The state the program is in after a schedule. */
  function After(c: Race, schedule: seq<Agent>): State {
    Run(c, Initial(c), schedule)
  }

  lemma InvAfter(c: Race, schedule: seq<Agent>)
    ensures Inv(c, After(c, schedule))
  {
    InvInitial(c);
    InvRun(c, Initial(c), schedule);
  }

  // ------------------------------------------------------------------ safety theorems

  /** Whatever the schedule, at every round boundary the shared variables are those of the
      sequential simulation after as many rounds as the clock has ticked. */
  lemma RoundBoundary(c: Race, schedule: seq<Agent>)
    ensures var s := After(c, schedule);
            s.g.tick >= -1 && (s.rp in {RLoop, RCheck, RExited} ==> s.g == Sim(c, s.g.tick + 1))
  {
    InvAfter(c, schedule);
  }

  /** Whatever the schedule, in the middle of a round the variables are on their way to what the
      sequential simulation has at the end of that round. */
  lemma EveryStateRefines(c: Race, schedule: seq<Agent>)
    ensures var s := After(c, schedule);
            s.g.tick >= -1 && Future(c, s) == Sim(c, s.g.tick + 1)
  {
    InvAfter(c, schedule);
  }

  /** If init returns, it returns the winner of the sequential race, and the lines Report printed
      are the lines of the sequential race. */
  lemma InitReturnsSequentialWinner(c: Race, schedule: seq<Agent>)
    ensures var s := After(c, schedule);
            s.mp.Returned? ==>
              && s.g.tick >= 0
              && WinsAfter(c, s.g.tick + 1, s.mp.x)
              && s.g.printed == Sim(c, s.g.tick + 1).printed
              && LinesRight(c, s.g.printed, s.g.tick)
  {
    hide Turns, LinesRight, After;
    InvAfter(c, schedule);
    var s := After(c, schedule);
    if s.mp.Returned? {
      assert s.g == Sim(c, s.g.tick + 1) && !s.g.open;
      assert Sim(c, 0).open;
      SimLines(c, s.g.tick + 1);
      SimTick(c, s.g.tick + 1);
      SimTick(c, s.g.tick);
    }
  }

  /** While there is no winner, at most one worker is in its action section; after that, no worker
      is about to move a player unless it is alone in its action section. */
  lemma OneWorkerActs(c: Race, schedule: seq<Agent>, u: Worker, w: Worker)
    ensures var s := After(c, schedule);
            s.wk.Get(u).Act? && s.wk.Get(w).Act? && (s.g.open || Moving(s.wk.Get(u).a)) ==> u == w
  {
    InvAfter(c, schedule);
    var s := After(c, schedule);
    assert TurnToken(s, u) && TurnToken(s, w);
  }

  /** The lock that a pending lock_release, cond_wait or cond_signal is called with. */
  function Checked(s: State, a: Agent): Option<Lock> {
    match a
    case Main => if s.mp.HWait? || s.mp.HUnlock? then Some(StartLock(s.mp.w)) else None
    case Reporter =>
      if s.rp == RUnlockClock then Some(ClockLock)
      else if s.rp.RSignal? || s.rp.RWait? || s.rp.RUnlock? || s.rp.ESignal? || s.rp.EUnlock? then
        Some(TurnLock(s.rp.w))
      else None
    case Thread(w) =>
      (match s.wk.Get(w)
       case FirstSignal => Some(StartLock(w))
       case FirstUnlockMain => Some(StartLock(w))
       case Wait => Some(TurnLock(w))
       case Signal => Some(TurnLock(w))
       case UnlockTurn => Some(TurnLock(w))
       case UnlockClock => Some(ClockLock)
       case Act(UnlockTurtle) => Some(TurtleDistLock)
       case Act(UnlockHare) => Some(HareDistLock)
       case _ => None)
  }

  /** Every lock_release, cond_wait and cond_signal is made by the owner of the lock, so no
      held-lock assertion of cs_thread.h can fail. */
  lemma AssertionsHold(c: Race, schedule: seq<Agent>, a: Agent)
    ensures var s := After(c, schedule);
            Checked(s, a).Some? ==> Owns(s, a, Checked(s, a).value)
  {
    InvAfter(c, schedule);
    var s := After(c, schedule);
    assert LegalInv(s);
    if Checked(s, a).Some? {
      assert Holds(s, a, Checked(s, a).value);
    }
  }

  /** In the first round Report's signal finds each worker waiting for it. */
  lemma FirstSignalFindsWorkerParked(c: Race, schedule: seq<Agent>, w: Worker)
    ensures var s := After(c, schedule);
            s.g.tick <= 0 && s.rp == RSignal(w) ==> s.wk.Get(w) == Parked
  {
    InvAfter(c, schedule);
    var s := After(c, schedule);
    if s.g.tick <= 0 && s.rp == RSignal(w) {
      assert FirstRound(s, w);
      assert Holds(s, Reporter, TurnLock(w));
      if s.wk.Get(w) == Wait {
        Exclusion(s, Reporter, Thread(w), TurnLock(w));
      }
    }
  }
}
