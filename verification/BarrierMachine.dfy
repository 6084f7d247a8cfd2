/** barrier.c as a machine: any number of threads run straight-line programs whose statements call
    barrier_wait on some barrier.  Each statement of barrier_wait is a step of its own.  A waiting
    thread is woken by a broadcast and by nothing else. */
module BarrierMachine {
  import opened Wrappers

  datatype Event = Hii | Hello | Total(sum: int)

  /** Statements of the client programs, loops unrolled. */
  datatype Op =
    | Wait(b: nat)        // barrier_wait(&b)
    | Add(d: int)         // array[id] += d
    | Clear               // sum = 0
    | Read(i: nat)        // sum += array[i]
    | Show                // printf of sum
    | Say(e: Event)       // printf of a fixed line
    | Join(u: nat)        // pthread_join

  type Programs = seq<seq<Op>>

  /** Where a thread is within its current statement; all but Entry are inside barrier_wait. */
  datatype Stage =
    | Entry               // before the statement; in barrier_wait: pthread_mutex_lock
    | Decrement           // count -= 1
    | Test                // if(count != 0), and pthread_cond_wait if so
    | Waiting             // blocked on the condition variable
    | Broadcast           // pthread_cond_broadcast
    | Reset               // count = thread_count_initial
    | Relock              // woken up, pthread_cond_wait takes the mutex again
    | Unlock              // pthread_mutex_unlock

  /** A barrier_t; `round` is a history variable counting the broadcasts. */
  datatype Barrier = Barrier(initial: int, count: int, owner: Option<nat>, round: nat)

  datatype State = State(
    pos: seq<nat>,
    stage: seq<Stage>,
    bar: seq<Barrier>,
    cell: seq<int>,
    sum: seq<int>,
    log: seq<Event>)

  /** barrier_init */
  function Init(n: int): Barrier {
    Barrier(n, n, None, 0)
  }

  function Start(p: Programs, sizes: seq<int>, cells: nat): State {
    State(seq(|p|, _ => 0), seq(|p|, _ => Entry), seq(|sizes|, i requires 0 <= i < |sizes| => Init(sizes[i])),
          seq(cells, _ => 0), seq(|p|, _ => 0), [])
  }

  /** The statements of a program make sense for the thread that runs it. */
  predicate Sensible(op: Op, t: nat, threads: nat, bars: nat, cells: nat) {
    match op
    case Wait(b) => b < bars
    case Add(_) => t < cells
    case Read(i) => i < cells
    case Join(u) => u < threads
    case _ => true
  }

  predicate Shape(p: Programs, s: State) {
    && |s.pos| == |s.stage| == |s.sum| == |p|
    && (forall t, i :: 0 <= t < |p| && 0 <= i < |p[t]| ==> Sensible(p[t][i], t, |p|, |s.bar|, |s.cell|))
    && (forall t :: 0 <= t < |p| ==> s.pos[t] <= |p[t]|)
    && (forall t :: 0 <= t < |p| && s.stage[t] != Entry ==> s.pos[t] < |p[t]| && p[t][s.pos[t]].Wait?)
  }

  /** Thread t is calling barrier_wait on b. */
  predicate At(p: Programs, s: State, t: nat, b: nat)
    requires |s.pos| == |p|
  {
    t < |p| && s.pos[t] < |p[t]| && p[t][s.pos[t]] == Wait(b)
  }

  predicate Finished(p: Programs, s: State, t: nat)
    requires |s.pos| == |p|
  {
    t < |p| && s.pos[t] >= |p[t]|
  }

  function Current(p: Programs, s: State, t: nat): Op
    requires |s.pos| == |p| && t < |p| && s.pos[t] < |p[t]|
  {
    p[t][s.pos[t]]
  }

  predicate CanStep(p: Programs, s: State, t: nat)
    requires Shape(p, s)
  {
    && t < |p| && s.pos[t] < |p[t]|
    && match Current(p, s, t)
       case Join(u) => Finished(p, s, u)
       case Wait(b) =>
         (match s.stage[t]
          case Entry => s.bar[b].owner == None
          case Relock => s.bar[b].owner == None
          case Waiting => false
          case _ => true)
       case _ => true
  }

  function Goto(s: State, t: nat, g: Stage): State
    requires t < |s.stage|
  {
    s.(stage := s.stage[t := g])
  }

  function Next(s: State, t: nat): State
    requires t < |s.stage| && t < |s.pos|
  {
    s.(stage := s.stage[t := Entry], pos := s.pos[t := s.pos[t] + 1])
  }

  function SetOwner(s: State, b: nat, o: Option<nat>): State
    requires b < |s.bar|
  {
    s.(bar := s.bar[b := s.bar[b].(owner := o)])
  }

  function SetCount(s: State, b: nat, c: int): State
    requires b < |s.bar|
  {
    s.(bar := s.bar[b := s.bar[b].(count := c)])
  }

  /** Every thread waiting on b is woken up. */
  function WakeAll(p: Programs, s: State, b: nat): seq<Stage>
    requires |s.pos| == |s.stage| == |p|
  {
    seq(|s.stage|, u requires 0 <= u < |s.stage| =>
      if s.stage[u] == Waiting && At(p, s, u, b) then Relock else s.stage[u])
  }

  /** One statement of barrier_wait. */
  function BarrierStep(p: Programs, s: State, t: nat, b: nat): State
    requires |s.pos| == |s.stage| == |p| && t < |p| && b < |s.bar|
  {
    match s.stage[t]
    case Entry => Goto(SetOwner(s, b, Some(t)), t, Decrement)
    case Decrement => Goto(SetCount(s, b, s.bar[b].count - 1), t, Test)
    case Test => if s.bar[b].count != 0 then Goto(SetOwner(s, b, None), t, Waiting) else Goto(s, t, Broadcast)
    case Waiting => s
    case Broadcast =>
      s.(stage := WakeAll(p, s, b)[t := Reset], bar := s.bar[b := s.bar[b].(round := s.bar[b].round + 1)])
    case Reset => Goto(SetCount(s, b, s.bar[b].initial), t, Unlock)
    case Relock => Goto(SetOwner(s, b, Some(t)), t, Unlock)
    case Unlock => Next(SetOwner(s, b, None), t)
  }

  /** One statement of thread t; a thread that cannot move stays where it is. */
  function Step(p: Programs, s: State, t: nat): State
    requires Shape(p, s)
  {
    if !CanStep(p, s, t) then s
    else match Current(p, s, t)
         case Wait(b) => BarrierStep(p, s, t, b)
         case Add(d) => Next(s.(cell := s.cell[t := s.cell[t] + d]), t)
         case Clear => Next(s.(sum := s.sum[t := 0]), t)
         case Read(i) => Next(s.(sum := s.sum[t := s.sum[t] + s.cell[i]]), t)
         case Show => Next(s.(log := s.log + [Total(s.sum[t])]), t)
         case Say(e) => Next(s.(log := s.log + [e]), t)
         case Join(_) => Next(s, t)
  }

  lemma ShapeStep(p: Programs, s: State, t: nat)
    requires Shape(p, s)
    ensures Shape(p, Step(p, s, t)) && |Step(p, s, t).bar| == |s.bar| && |Step(p, s, t).cell| == |s.cell|
  {
  }

  /** The run of a schedule, which names the thread to move next again and again. */
  function Run(p: Programs, s: State, schedule: seq<nat>): (r: State)
    requires Shape(p, s)
    ensures Shape(p, r) && |r.bar| == |s.bar| && |r.cell| == |s.cell|
    decreases |schedule|
  {
    if schedule == [] then s
    else
      ShapeStep(p, s, schedule[0]);
      Run(p, Step(p, s, schedule[0]), schedule[1..])
  }
}
