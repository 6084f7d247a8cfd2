/** hare_tortoise.c as a machine: one program counter per thread, lock owners, and one atomic step
    per statement.  A condition variable of the program has only one thread that can ever wait on
    it, so its wait set is read off that thread's program counter (`Parked`); a signal moves the
    waiter to `Relock`, a signal without a waiter is lost, and nothing else wakes a waiter. */
module RaceThreads {
  import opened Wrappers
  import opened RaceSequential

  datatype Worker = Randomizer | Turtle | Hare

  datatype Agent = Main | Reporter | Thread(w: Worker)

  /** reporter_lock, the three X_reporter_lock, the three X_main_lock and the two distance locks. */
  datatype Lock = ClockLock | TurnLock(w: Worker) | StartLock(w: Worker) | TurtleDistLock | HareDistLock

  datatype PerWorker<T> = PerWorker(r: T, t: T, h: T) {
    function Get(w: Worker): T {
      match w case Randomizer => r case Turtle => t case Hare => h
    }

    function Set(w: Worker, v: T): (p: PerWorker<T>)
      ensures forall u :: p.Get(u) == if u == w then v else Get(u)
    {
      match w case Randomizer => this.(r := v) case Turtle => this.(t := v) case Hare => this.(h := v)
    }
  }

  /** Statements of an action section (lines 100-116, 162-190 and 234-271). */
  datatype ActPc =
    | Test                              // if(no_winner)
    | Tie                               // the else-if of Turtle
    | Sleepy                            // hare_sleep_counter == sleep time?
    | Nap                               // hare_sleep_counter += 1
    | Match                             // is it the time of the next array entry?
    | LockTurtle                        // lock_acquire(&turtle_distance_lock)
    | Lead                              // is the hare's lead small enough?
    | LockHare                          // lock_acquire(&hare_distance_lock)
    | Add(p: Player, d: int)            // X_distance += d
    | Compare(p: Player)                // X_distance < 0?  X_distance >= finish_distance?
    | Zero(p: Player)                   // X_distance = 0
    | Claim(p: Player)                  // overall_winner = ...
    | Clip(p: Player)                   // X_distance = finish_distance
    | Close                             // no_winner = 0
    | UnlockHare                        // lock_release(&hare_distance_lock)
    | Wake                              // hare_sleep_counter = 0
    | UnlockTurtle                      // lock_release(&turtle_distance_lock)
    | Advance                           // array_index++

  /** Program counters of the three workers; the first trip of the loop goes through First*. */
  datatype WorkerPc =
    | NotCreated | Start | Loop | TestReached
    | FirstLockMain | FirstSetReached | FirstLockTurn | FirstSignal | FirstUnlockMain
    | LockTurn | Wait | Parked | Relock
    | LockClock | ReadClock | UnlockClock
    | Act(a: ActPc)
    | Signal | UnlockTurn | Exited

  datatype ReporterPc =
    | RNotCreated | RLoop | RLockClock | RTick | RUnlockClock
    | RLock(w: Worker) | RSignal(w: Worker) | RWait(w: Worker) | RParked(w: Worker) | RRelock(w: Worker)
        | RUnlock(w: Worker)
    | RPrint | RCheck
    | ELock(w: Worker) | ESignal(w: Worker) | EUnlock(w: Worker)
    | RExited

  datatype MainPc =
    | Create(w: Worker) | HLock(w: Worker) | HTest(w: Worker) | HWait(w: Worker) | HParked(w: Worker)
    | HRelock(w: Worker) | HUnlock(w: Worker)
    | CreateReport | Join(w: Worker) | JoinReport | Returned(x: char)

  datatype State = State(
    g: Globals,
    reached: PerWorker<bool>,
    curr: PerWorker<int>,
    owner: map<Lock, Agent>,
    wk: PerWorker<WorkerPc>,
    rp: ReporterPc,
    mp: MainPc)

  function Initial(c: Race): State {
    State(
      StartingLine(c).(sleepCounter := 0),
      PerWorker(false, false, false),
      PerWorker(0, 0, 0),
      map[],
      PerWorker(NotCreated, NotCreated, NotCreated),
      RNotCreated,
      Create(Randomizer))
  }

  // ------------------------------------------------------------------ action sections

  /** Where a worker goes when it has moved a player. */
  function AfterMove(w: Worker): ActPc {
    match w case Randomizer => Advance case Turtle => UnlockTurtle case Hare => UnlockHare
  }

  /** What follows a statement of worker w's action section; None leaves the section. */
  function NextAct(c: Race, w: Worker, a: ActPc, g: Globals, now: int): (n: Option<ActPc>) {
    match a
    case Test =>
      if g.open then Some(match w case Randomizer => Match case Turtle => LockTurtle case Hare => Sleepy)
      else if w == Turtle then Some(Tie) else None
    case Tie => None
    case Sleepy => Some(if g.sleepCounter == c.hareSleepTime then LockTurtle else Nap)
    case Nap => None
    case Match =>
      if g.index < |c.reposition| && c.reposition[g.index].time == now then
        var r := c.reposition[g.index];
        Some(if r.player == 'H' then Add(Rabbit, r.distance)
             else if r.player == 'T' then Add(Tortoise, r.distance)
             else Advance)
      else None
    case LockTurtle => Some(if w == Turtle then Add(Tortoise, c.tortoiseSpeed) else Lead)
    case Lead => Some(if g.hare - g.turtle <= c.sleepLead then LockHare else Wake)
    case LockHare => Some(Add(Rabbit, c.hareSpeed))
    case Add(p, _) => Some(Compare(p))
    case Compare(p) =>
      Some(if w == Randomizer && Distance(g, p) < 0 then Zero(p)
           else if Distance(g, p) >= c.finish then Claim(p)
           else AfterMove(w))
    case Zero(_) => Some(AfterMove(w))
    case Claim(p) => Some(Clip(p))
    case Clip(_) => Some(Close)
    case Close => Some(AfterMove(w))
    case UnlockHare => Some(Wake)
    case Wake => Some(UnlockTurtle)
    case UnlockTurtle => None
    case Advance => None
  }

  /** The assignment a statement makes. */
  function Effect(c: Race, a: ActPc, g: Globals): Globals {
    match a
    case Tie => if g.winner == 'H' && g.hare == g.turtle then g.(winner := 'T') else g
    case Nap => g.(sleepCounter := g.sleepCounter + 1)
    case Add(p, d) => WithDistance(g, p, Distance(g, p) + d)
    case Zero(p) => WithDistance(g, p, 0)
    case Claim(p) => g.(winner := Letter(p))
    case Clip(p) => WithDistance(g, p, c.finish)
    case Close => g.(open := false)
    case Wake => g.(sleepCounter := 0)
    case Advance => g.(index := g.index + 1)
    case _ => g
  }

  // ------------------------------------------------------------------ statements of a worker

  /** The lock a worker's statement acquires. */
  function WorkerTakes(w: Worker, pc: WorkerPc): Option<Lock> {
    match pc
    case FirstLockMain => Some(StartLock(w))
    case FirstLockTurn => Some(TurnLock(w))
    case LockTurn => Some(TurnLock(w))
    case Relock => Some(TurnLock(w))
    case LockClock => Some(ClockLock)
    case Act(LockTurtle) => Some(TurtleDistLock)
    case Act(LockHare) => Some(HareDistLock)
    case _ => None
  }

  /** The lock a worker's statement releases; pthread_cond_wait releases its mutex when it parks. */
  function WorkerGives(w: Worker, pc: WorkerPc): Option<Lock> {
    match pc
    case FirstUnlockMain => Some(StartLock(w))
    case Wait => Some(TurnLock(w))
    case UnlockTurn => Some(TurnLock(w))
    case UnlockClock => Some(ClockLock)
    case Act(UnlockTurtle) => Some(TurtleDistLock)
    case Act(UnlockHare) => Some(HareDistLock)
    case _ => None
  }

  function WorkerNext(c: Race, w: Worker, pc: WorkerPc, g: Globals, reached: bool, now: int): WorkerPc {
    match pc
    case Start => Loop
    case Loop => if g.open then TestReached else Exited
    case TestReached => if reached then LockTurn else FirstLockMain
    case FirstLockMain => FirstSetReached
    case FirstSetReached => FirstLockTurn
    case FirstLockTurn => FirstSignal
    case FirstSignal => FirstUnlockMain
    case FirstUnlockMain => Wait
    case LockTurn => Wait
    case Wait => Parked
    case Relock => LockClock
    case LockClock => ReadClock
    case ReadClock => UnlockClock
    case UnlockClock => Act(Test)
    case Act(a) => var n := NextAct(c, w, a, g, now); if n == None then Signal else Act(n.value)
    case Signal => UnlockTurn
    case UnlockTurn => Loop
    case _ => pc
  }

  function WorkerEffect(c: Race, w: Worker, pc: WorkerPc, g: Globals): Globals {
    match pc
    case Start => if w == Hare then g.(sleepCounter := c.hareSleepTime) else g
    case Act(a) => Effect(c, a, g)
    case _ => g
  }

  // ------------------------------------------------------------------ statements of Report

  function ReporterTakes(rp: ReporterPc): Option<Lock> {
    match rp
    case RLockClock => Some(ClockLock)
    case RLock(w) => Some(TurnLock(w))
    case RRelock(w) => Some(TurnLock(w))
    case ELock(w) => Some(TurnLock(w))
    case _ => None
  }

  function ReporterGives(rp: ReporterPc): Option<Lock> {
    match rp
    case RUnlockClock => Some(ClockLock)
    case RWait(w) => Some(TurnLock(w))
    case RUnlock(w) => Some(TurnLock(w))
    case EUnlock(w) => Some(TurnLock(w))
    case _ => None
  }

  function ReporterNext(rp: ReporterPc, open: bool): ReporterPc {
    match rp
    case RLoop => if open then RLockClock else RExited
    case RLockClock => RTick
    case RTick => RUnlockClock
    case RUnlockClock => RLock(Randomizer)
    case RLock(w) => RSignal(w)
    case RSignal(w) => RWait(w)
    case RWait(w) => RParked(w)
    case RRelock(w) => RUnlock(w)
    case RUnlock(w) => (match w case Randomizer => RPrint case Turtle => RLock(Hare) case Hare => RCheck)
    case RPrint => RLock(Turtle)
    case RCheck => if open then RLoop else ELock(Randomizer)
    case ELock(w) => ESignal(w)
    case ESignal(w) => EUnlock(w)
    case EUnlock(w) => (match w case Randomizer => ELock(Turtle) case Turtle => ELock(Hare) case Hare => RLoop)
    case _ => rp
  }

  function ReporterEffect(c: Race, rp: ReporterPc, g: Globals): Globals {
    if rp == RTick then Ticked(g) else if rp == RPrint then ReportLine(c, g) else g
  }

  /** pthread_cond_signal on the variable worker w waits on. */
  function Notify(wk: PerWorker<WorkerPc>, w: Worker): PerWorker<WorkerPc> {
    if wk.Get(w) == Parked then wk.Set(w, Relock) else wk
  }

  // ------------------------------------------------------------------ statements of init

  function MainTakes(mp: MainPc): Option<Lock> {
    match mp
    case HLock(w) => Some(StartLock(w))
    case HRelock(w) => Some(StartLock(w))
    case _ => None
  }

  function MainGives(mp: MainPc): Option<Lock> {
    match mp
    case HWait(w) => Some(StartLock(w))
    case HUnlock(w) => Some(StartLock(w))
    case _ => None
  }

  function MainNext(s: State): MainPc {
    match s.mp
    case Create(w) => HLock(w)
    case HLock(w) => HTest(w)
    case HTest(w) => if s.reached.Get(w) then HUnlock(w) else HWait(w)
    case HWait(w) => HParked(w)
    case HRelock(w) => HUnlock(w)
    case HUnlock(w) => (match w case Randomizer => Create(Turtle) case Turtle => Create(Hare) case Hare => CreateReport)
    case CreateReport => Join(Randomizer)
    case Join(w) => (match w case Randomizer => Join(Turtle) case Turtle => Join(Hare) case Hare => JoinReport)
    case JoinReport => Returned(s.g.winner)
    case _ => s.mp
  }

  // ------------------------------------------------------------------ steps

  function Takes(s: State, a: Agent): Option<Lock> {
    match a
    case Main => MainTakes(s.mp)
    case Reporter => ReporterTakes(s.rp)
    case Thread(w) => WorkerTakes(w, s.wk.Get(w))
  }

  function Gives(s: State, a: Agent): Option<Lock> {
    match a
    case Main => MainGives(s.mp)
    case Reporter => ReporterGives(s.rp)
    case Thread(w) => WorkerGives(w, s.wk.Get(w))
  }

  /** Not started, parked on a condition variable, joining a running thread, or finished. */
  predicate Asleep(s: State, a: Agent) {
    match a
    case Main =>
      || s.mp.HParked? || s.mp.Returned?
      || (s.mp.Join? && s.wk.Get(s.mp.w) != Exited) || (s.mp == JoinReport && s.rp != RExited)
    case Reporter => s.rp == RNotCreated || s.rp.RParked? || s.rp == RExited
    case Thread(w) => s.wk.Get(w) == NotCreated || s.wk.Get(w) == Parked || s.wk.Get(w) == Exited
  }

  predicate CanStep(s: State, a: Agent) {
    !Asleep(s, a) && (Takes(s, a).Some? ==> Takes(s, a).value !in s.owner)
  }

  function Owners(s: State, a: Agent): map<Lock, Agent> {
    if Takes(s, a).Some? then s.owner[Takes(s, a).value := a]
    else if Gives(s, a).Some? then s.owner - {Gives(s, a).value}
    else s.owner
  }

  function WorkerStep(c: Race, s: State, w: Worker): State {
    var pc := s.wk.Get(w);
    State(
      WorkerEffect(c, w, pc, s.g),
      if pc == FirstSetReached then s.reached.Set(w, true) else s.reached,
      if pc == ReadClock then s.curr.Set(w, s.g.tick) else s.curr,
      Owners(s, Thread(w)),
      s.wk.Set(w, WorkerNext(c, w, pc, s.g, s.reached.Get(w), s.curr.Get(w))),
      if pc == Signal && s.rp == RParked(w) then RRelock(w) else s.rp,
      if pc == FirstSignal && s.mp == HParked(w) then HRelock(w) else s.mp)
  }

  function ReporterStep(c: Race, s: State): State {
    State(
      ReporterEffect(c, s.rp, s.g),
      s.reached,
      s.curr,
      Owners(s, Reporter),
      if s.rp.RSignal? || s.rp.ESignal? then Notify(s.wk, s.rp.w) else s.wk,
      ReporterNext(s.rp, s.g.open),
      s.mp)
  }

  function MainStep(s: State): State {
    State(
      s.g,
      s.reached,
      s.curr,
      Owners(s, Main),
      if s.mp.Create? then s.wk.Set(s.mp.w, Start) else s.wk,
      if s.mp == CreateReport then RLoop else s.rp,
      MainNext(s))
  }

  /** One statement of one thread; a thread that cannot move stays where it is. */
  function Step(c: Race, s: State, a: Agent): State {
    if !CanStep(s, a) then s
    else match a case Main => MainStep(s) case Reporter => ReporterStep(c, s) case Thread(w) => WorkerStep(c, s, w)
  }

  /** The run of a schedule, which names the thread to move next again and again. */
  function Run(c: Race, s: State, schedule: seq<Agent>): State
    decreases |schedule|
  {
    if schedule == [] then s else Run(c, Step(c, s, schedule[0]), schedule[1..])
  }

  lemma {:induction false} RunAppend(c: Race, s: State, one: seq<Agent>, two: seq<Agent>)
    ensures Run(c, s, one + two) == Run(c, Run(c, s, one), two)
    decreases |one|
  {
    if one == [] {
      assert one + two == two;
    } else {
      assert (one + two)[1..] == one[1..] + two;
      RunAppend(c, Step(c, s, one[0]), one[1..], two);
    }
  }
}
