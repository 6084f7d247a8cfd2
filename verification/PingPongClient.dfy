/** barrier-testcase5.c for any number R of rounds: two threads print in turn with the help of two
    barriers, the first of which is made for two threads but called by three. */
module PingPongClient {
  import opened BarrierMachine
  import opened BarrierSafety
  import opened BarrierProgress

  // Thread 0 is "Thread 1" of the test case, thread 1 is "Thread 2", thread 2 is main.
  // Barrier 0 is b1, barrier 1 is b2.

  function FirstOp(r: nat, k: nat): Op {
    if k >= 3 * r || k % 3 == 0 then Wait(0) else if k % 3 == 1 then Say(Hii) else Wait(1)
  }

  function SecondOp(k: nat): Op {
    if k % 3 == 0 then Wait(1) else if k % 3 == 1 then Say(Hello) else Wait(0)
  }

  function First(r: nat): seq<Op> {
    seq(3 * r + 1, k requires 0 <= k < 3 * r + 1 => FirstOp(r, k))
  }

  function Second(r: nat): seq<Op> {
    seq(3 * r, k requires 0 <= k < 3 * r => SecondOp(k))
  }

  const MAIN: seq<Op> := [Wait(0), Join(0), Join(1)]

  function PingPong(r: nat): Programs {
    [First(r), Second(r), MAIN]
  }

  /** How often a thread has entered the barrier at positions 0, 3, 6, ... when it has come to k. */
  function Entries(k: nat): nat { k / 3 + (if k % 3 == 0 then 0 else 1) }

  /** How many lines a thread has printed when it has come to position k. */
  function Lines(k: nat): nat { k / 3 + (if k % 3 == 2 then 1 else 0) }

  lemma {:induction false} FirstWaits(r: nat, k: nat)
    requires k <= 3 * r + 1
    ensures Waits(First(r), k, 0) == Entries(k) && Waits(First(r), k, 1) == k / 3
  {
    if k > 0 {
      FirstWaits(r, k - 1);
    }
  }

  lemma {:induction false} SecondWaits(r: nat, k: nat)
    requires k <= 3 * r
    ensures Waits(Second(r), k, 0) == k / 3 && Waits(Second(r), k, 1) == Entries(k)
  {
    if k > 0 {
      SecondWaits(r, k - 1);
    }
  }

  lemma {:induction false} MainWaits(k: nat)
    requires k <= 3
    ensures Waits(MAIN, k, 0) == if k == 0 then 0 else 1
  {
    if k > 0 {
      MainWaits(k - 1);
    }
  }

  // ------------------------------------------------------------------ invariant

  /** b1: main and "Thread 2" between them enter b1 once per round, just like "Thread 1", and main
      comes first. */
  ghost predicate PairInv(r: nat, s: State)
    requires Shape(PingPong(r), s) && |s.bar| == 2
  {
    var p := PingPong(r);
    var g := s.bar[0].round;
    var one, two, mai := Arrived(p, s, 0, 0), Arrived(p, s, 1, 0), Arrived(p, s, 2, 0);
    && Entered(p, s, 0, 0) == g + (if one then 1 else 0)
    && Entered(p, s, 1, 0) + Entered(p, s, 2, 0) == g + (if two || mai then 1 else 0)
    && !(two && mai)
    && (Entered(p, s, 1, 0) >= 1 ==> Entered(p, s, 2, 0) == 1)
  }

  /** Greetings in turn, m of them. */
  function Chat(m: nat): seq<Event> {
    if m == 0 then [] else Chat(m - 1) + [if m % 2 == 1 then Hii else Hello]
  }

  /** The i-th line of the chat. */
  lemma {:induction false} ChatAt(m: nat, i: nat)
    ensures |Chat(m)| == m && (i < m ==> Chat(m)[i] == if i % 2 == 0 then Hii else Hello)
  {
    if m > 0 {
      ChatAt(m - 1, i);
    }
  }

  ghost predicate ChatInv(r: nat, s: State)
    requires Shape(PingPong(r), s)
  {
    s.log == Chat(Said(s.pos[0], s.pos[1]))
  }

  ghost predicate PingPongInv(r: nat, s: State)
    requires Shape(PingPong(r), s)
  {
    && |s.bar| == 2 && s.bar[0].initial == 2 && s.bar[1].initial == 2
    && BarrierInv(PingPong(r), s, 0) && BarrierInv(PingPong(r), s, 1)
    && Team(PingPong(r), 1, {0, 1}) && RoundInv(PingPong(r), s, 1, {0, 1})
    && PairInv(r, s) && ChatInv(r, s)
  }

  lemma TeamOfB2(r: nat)
    ensures Team(PingPong(r), 1, {0, 1})
  {
    var p := PingPong(r);
    assert forall i :: 0 <= i < |p[2]| ==> p[2][i] != Wait(1);
  }

  // ------------------------------------------------------------------ positions

  /** What the position of "Thread 1" says about the rounds of b1. */
  lemma FirstAtB1(r: nat, s: State)
    requires Shape(PingPong(r), s) && PingPongInv(r, s)
    ensures var k, g := s.pos[0], s.bar[0].round;
      && k <= 3 * r + 1
      && (if k % 3 == 0 && k <= 3 * r then
            k / 3 <= g <= k / 3 + 1 && (Arrived(PingPong(r), s, 0, 0) ==> g == k / 3)
          else g == Entries(k))
  {
    hide BarrierInv, ChatInv, Callers, RoundInv, Team;
    FirstWaits(r, s.pos[0]);
  }

  /** What it says about the rounds of b2. */
  lemma FirstAtB2(r: nat, s: State)
    requires Shape(PingPong(r), s) && PingPongInv(r, s)
    ensures var k, h := s.pos[0], s.bar[1].round;
            if k % 3 == 2 then k / 3 <= h <= k / 3 + 1 && (Arrived(PingPong(r), s, 0, 1) ==> h == k / 3) else h == k / 3
  {
    hide BarrierInv, ChatInv, Callers, PairInv;
    FirstWaits(r, s.pos[0]);
    assert Entered(PingPong(r), s, 0, 1) == s.bar[1].round + (if Arrived(PingPong(r), s, 0, 1) then 1 else 0);
    hide RoundInv, Team;
  }

  /** What the position of "Thread 2" says about the rounds of b2. */
  lemma SecondPosition(r: nat, s: State)
    requires Shape(PingPong(r), s) && PingPongInv(r, s)
    ensures var k, h := s.pos[1], s.bar[1].round;
            && k <= 3 * r
            && (if k % 3 == 0 && k < 3 * r then
                  k / 3 <= h <= k / 3 + 1 && (Arrived(PingPong(r), s, 1, 1) ==> h == k / 3)
                else h == Entries(k))
  {
    hide BarrierInv, ChatInv, Callers, PairInv;
    SecondWaits(r, s.pos[1]);
  }

  /** How often main and "Thread 2" have entered b1. */
  lemma OthersEntered(r: nat, s: State)
    requires Shape(PingPong(r), s)
    ensures var p, k, m := PingPong(r), s.pos[1], s.pos[2];
            && (if k % 3 == 2 then k / 3 <= Entered(p, s, 1, 0) <= k / 3 + 1
                                   && (Entered(p, s, 1, 0) == k / 3 + 1
                                       <==> s.stage[1] != Entry && s.stage[1] != Decrement)
                else Entered(p, s, 1, 0) == k / 3)
            && (if m == 0 then Entered(p, s, 2, 0) == (if s.stage[2] != Entry && s.stage[2] != Decrement then 1 else 0)
                else Entered(p, s, 2, 0) == 1)
  {
    SecondWaits(r, s.pos[1]);
    MainWaits(s.pos[2]);
  }

  // ------------------------------------------------------------------ every step

  /** b1 is never behind b2. */
  lemma FirstBarrierAhead(r: nat, s: State)
    requires Shape(PingPong(r), s) && PingPongInv(r, s)
    ensures s.bar[0].round >= s.bar[1].round
  {
    FirstAtB1(r, s);
    FirstAtB2(r, s);
    hide PingPongInv, PingPong, Arrived;
  }

  /** When "Thread 2" enters b1, main has been there and is gone. */
  lemma MainIsFirst(r: nat, s: State)
    requires Shape(PingPong(r), s) && PingPongInv(r, s) && At(PingPong(r), s, 1, 0) && s.stage[1] == Decrement
    ensures Entered(PingPong(r), s, 2, 0) == 1 && !Arrived(PingPong(r), s, 2, 0)
  {
    assert s.pos[1] % 3 == 2;
    hide BarrierInv, RoundInv, ChatInv, Team, PingPong, Shape, Entered;
    FirstBarrierAhead(r, s);
    SecondPosition(r, s);
    OthersEntered(r, s);
  }

  /** When b1 broadcasts, "Thread 1" and one of the others have arrived. */
  lemma BothArrived(r: nat, s: State, t: nat)
    requires Shape(PingPong(r), s) && PingPongInv(r, s) && At(PingPong(r), s, t, 0) && s.stage[t] == Broadcast
    ensures var p := PingPong(r); Arrived(p, s, 0, 0) && (Arrived(p, s, 1, 0) || Arrived(p, s, 2, 0))
  {
    var p := PingPong(r);
    BroadcastMeansFull(p, s, t, 0);
    var a := ArrivedSet(p, s, 0);
    assert 1 in a <==> Arrived(p, s, 1, 0);
    assert 2 in a <==> Arrived(p, s, 2, 0);
    assert a <= {0, 1, 2};
    if 0 !in a {
      assert a <= {1} || a <= {2};
      Small(a, 1);
      Small(a, 2);
    }
    if 1 !in a && 2 !in a {
      assert a <= {0};
      Small(a, 0);
    }
  }

  lemma Small(a: set<nat>, x: nat)
    ensures a <= {x} ==> |a| <= 1
  {
    if a <= {x} && a != {} {
      assert a == {x};
    }
  }

  lemma ThreeThreads(r: nat)
    ensures |PingPong(r)| == 3
  {
  }

  lemma HereFacts(r: nat, s: State, t: nat, u: nat)
    requires Shape(PingPong(r), s) && |s.bar| == 2 && CanStep(PingPong(r), s, t) && u < 3
    requires Current(PingPong(r), s, t) == Wait(0) && s.stage[t] != Broadcast
    ensures var p := PingPong(r);
            var n := Step(p, s, t);
            && Shape(p, n) && |n.bar| == 2 && n.bar[0].round == s.bar[0].round
            && Entered(p, n, u, 0) == Entered(p, s, u, 0) + (if u == t && s.stage[t] == Decrement then 1 else 0)
            && Arrived(p, n, u, 0) == (Arrived(p, s, u, 0) || (u == t && s.stage[t] == Decrement))
  {
    var p := PingPong(r);
    ShapeStep(p, s, t);
    RoundStep(p, s, t, 0);
    HereArrived(p, s, t, 0);
    EnteredStep(p, s, t, 0, u);
    var n := Step(p, s, t);
    hide Step, CanStep, Entered, Arrived, PingPong, Shape;
    ThreeThreads(r);
    assert u in ArrivedSet(p, n, 0) <==> Arrived(p, n, u, 0);
    assert u in ArrivedSet(p, s, 0) <==> Arrived(p, s, u, 0);
  }

  lemma PairHere(r: nat, s: State, t: nat)
    requires Shape(PingPong(r), s) && PingPongInv(r, s) && CanStep(PingPong(r), s, t)
    requires Current(PingPong(r), s, t) == Wait(0) && s.stage[t] != Broadcast
    ensures Shape(PingPong(r), Step(PingPong(r), s, t)) && |Step(PingPong(r), s, t).bar| == 2
    ensures PairInv(r, Step(PingPong(r), s, t))
  {
    hide BarrierInv, RoundInv, ChatInv, Team, Step, Entered;
    assert |s.stage| == |s.pos| == 3 && At(PingPong(r), s, t, 0) && s.pos[2] <= 3;
    assert t == 2 ==> s.pos[2] == 0;
    hide Shape, CanStep, PingPong;
    HereFacts(r, s, t, 0);
    HereFacts(r, s, t, 1);
    HereFacts(r, s, t, 2);
    if t == 1 && s.stage[1] == Decrement {
      MainIsFirst(r, s);
    }
    if t == 2 && s.stage[2] == Decrement {
      OthersEntered(r, s);
    }
  }

  lemma PairBroadcast(r: nat, s: State, t: nat)
    requires Shape(PingPong(r), s) && PingPongInv(r, s) && CanStep(PingPong(r), s, t)
    requires Current(PingPong(r), s, t) == Wait(0) && s.stage[t] == Broadcast
    ensures Shape(PingPong(r), Step(PingPong(r), s, t)) && |Step(PingPong(r), s, t).bar| == 2
    ensures PairInv(r, Step(PingPong(r), s, t))
  {
    var p := PingPong(r);
    var n := Step(p, s, t);
    ShapeStep(p, s, t);
    BroadcastReleases(p, s, t, 0);
    BothArrived(r, s, t);
    forall u: nat | u < 3 ensures Entered(p, n, u, 0) == Entered(p, s, u, 0) && !Arrived(p, n, u, 0) {
      EnteredStep(p, s, t, 0, u);
      assert u in ArrivedSet(p, n, 0) <==> Arrived(p, n, u, 0);
    }
    hide BarrierInv, RoundInv, ChatInv, Team, Step, CanStep, Entered, ArrivedSet;
  }

  lemma PairElsewhere(r: nat, s: State, t: nat)
    requires Shape(PingPong(r), s) && PingPongInv(r, s) && CanStep(PingPong(r), s, t)
    requires Current(PingPong(r), s, t) != Wait(0)
    ensures Shape(PingPong(r), Step(PingPong(r), s, t)) && |Step(PingPong(r), s, t).bar| == 2
    ensures PairInv(r, Step(PingPong(r), s, t))
  {
    hide BarrierInv, RoundInv, ChatInv, Team, Step, CanStep, Entered;
    var p := PingPong(r);
    var n := Step(p, s, t);
    ShapeStep(p, s, t);
    RoundStep(p, s, t, 0);
    ElsewhereKeeps(p, s, t, 0);
    forall u: nat | u < 3 ensures Entered(p, n, u, 0) == Entered(p, s, u, 0)
        && Arrived(p, n, u, 0) == Arrived(p, s, u, 0) {
      EnteredStep(p, s, t, 0, u);
      assert u in ArrivedSet(p, n, 0) <==> Arrived(p, n, u, 0);
      assert u in ArrivedSet(p, s, 0) <==> Arrived(p, s, u, 0);
    }
    hide ArrivedSet;
  }

  /** When a thread is about to print, it is its turn. */
  lemma TurnToPrint(r: nat, s: State)
    requires Shape(PingPong(r), s) && PingPongInv(r, s)
    ensures s.pos[0] % 3 == 1 && s.pos[0] < 3 * r ==> Lines(s.pos[1]) == s.pos[0] / 3
    ensures s.pos[1] % 3 == 1 ==> Lines(s.pos[0]) == s.pos[1] / 3 + 1
  {
    FirstAtB1(r, s);
    FirstAtB2(r, s);
    SecondPosition(r, s);
    OthersEntered(r, s);
    hide BarrierInv, RoundInv, ChatInv, Team, Entered;
  }

  /** Only the printing statements change the log, and they sit at positions 1, 4, 7, ... */
  lemma LogStep(r: nat, s: State, t: nat)
    requires Shape(PingPong(r), s) && CanStep(PingPong(r), s, t)
    ensures var n := Step(PingPong(r), s, t);
            && |n.pos| == 3
            && (forall u: nat :: u < 3 && u != t ==> n.pos[u] == s.pos[u])
            && (n.pos[t] == s.pos[t] || n.pos[t] == s.pos[t] + 1)
            && (if t == 0 && s.pos[0] % 3 == 1 && s.pos[0] < 3 * r then
                  n.log == s.log + [Hii] && n.pos[0] == s.pos[0] + 1
                else if t == 1 && s.pos[1] % 3 == 1 then n.log == s.log + [Hello] && n.pos[1] == s.pos[1] + 1
                else n.log == s.log)
            && (t == 0 ==> s.pos[0] <= 3 * r)
  {
    ShapeStep(PingPong(r), s, t);
  }

  lemma ChatNext(m: nat)
    ensures Chat(m + 1) == Chat(m) + [if m % 2 == 0 then Hii else Hello]
  {
  }

  lemma ChatOf(r: nat, s: State)
    requires Shape(PingPong(r), s) && PingPongInv(r, s)
    ensures ChatInv(r, s)
  {
  }

  function Said(k: nat, l: nat): nat {
    Lines(k) + Lines(l)
  }

  /** One more step of either thread adds the greeting that is due. */
  lemma SaidNext(r: nat, k: nat, l: nat)
    requires k % 3 == 1 && k < 3 * r ==> Lines(l) == k / 3
    requires l % 3 == 1 ==> Lines(k) == l / 3 + 1
    ensures k % 3 == 1 && k < 3 * r ==> Said(k + 1, l) == Said(k, l) + 1 && Said(k, l) % 2 == 0
    ensures k <= 3 * r && !(k % 3 == 1 && k < 3 * r) ==> Said(k + 1, l) == Said(k, l)
    ensures l % 3 == 1 ==> Said(k, l + 1) == Said(k, l) + 1 && Said(k, l) % 2 == 1
    ensures l % 3 != 1 ==> Said(k, l + 1) == Said(k, l)
  {
    LinesNext(k);
    LinesNext(l);
    hide Lines;
  }

  lemma LinesNext(k: nat)
    ensures Lines(k + 1) == Lines(k) + (if k % 3 == 1 then 1 else 0)
    ensures k % 3 == 1 ==> Lines(k) == k / 3
  {
  }

  lemma ChatStep(r: nat, s: State, t: nat)
    requires Shape(PingPong(r), s) && PingPongInv(r, s) && CanStep(PingPong(r), s, t)
    ensures Shape(PingPong(r), Step(PingPong(r), s, t)) && ChatInv(r, Step(PingPong(r), s, t))
  {
    hide PingPongInv, Shape, CanStep, Step, Chat, Said, PingPong;
    ShapeStep(PingPong(r), s, t);
    PositionsBounded(r, s);
    ChatOf(r, s);
    TurnToPrint(r, s);
    LogStep(r, s, t);
    var k, l := s.pos[0], s.pos[1];
    SaidNext(r, k, l);
    ChatNext(Said(k, l));
  }

  lemma PairStep(r: nat, s: State, t: nat)
    requires Shape(PingPong(r), s) && PingPongInv(r, s) && CanStep(PingPong(r), s, t)
    ensures Shape(PingPong(r), Step(PingPong(r), s, t)) && |Step(PingPong(r), s, t).bar| == 2
    ensures PairInv(r, Step(PingPong(r), s, t))
  {
    hide PingPongInv, PairInv, Step, PingPong;
    if Current(PingPong(r), s, t) != Wait(0) {
      PairElsewhere(r, s, t);
    } else if s.stage[t] == Broadcast {
      PairBroadcast(r, s, t);
    } else {
      PairHere(r, s, t);
    }
  }

  lemma PingPongStep(r: nat, s: State, t: nat)
    requires Shape(PingPong(r), s) && PingPongInv(r, s)
    ensures Shape(PingPong(r), Step(PingPong(r), s, t)) && PingPongInv(r, Step(PingPong(r), s, t))
  {
    hide BarrierInv, RoundInv, PairInv, Team, CanStep, ChatInv, Shape, PingPong;
    var p := PingPong(r);
    ShapeStep(p, s, t);
    if CanStep(p, s, t) {
      hide Step;
      BarrierStepKeeps(p, s, t, 0);
      BarrierStepKeeps(p, s, t, 1);
      InitialStep(p, s, t, 0);
      InitialStep(p, s, t, 1);
      RoundInvStep(p, s, t, 1, {0, 1});
      ChatStep(r, s, t);
      PairStep(r, s, t);
    }
  }

  lemma {:induction false} PingPongRun(r: nat, s: State, schedule: seq<nat>)
    requires Shape(PingPong(r), s) && PingPongInv(r, s)
    ensures PingPongInv(r, Run(PingPong(r), s, schedule))
    decreases |schedule|
  {
    hide PingPongInv;
    if schedule != [] {
      PingPongStep(r, s, schedule[0]);
      PingPongRun(r, Step(PingPong(r), s, schedule[0]), schedule[1..]);
    }
  }

  lemma PingPongProper(r: nat)
    ensures Proper(PingPong(r), 2, 0)
  {
  }

  lemma PingPongStart(r: nat)
    ensures Proper(PingPong(r), 2, 0) && Shape(PingPong(r), Start(PingPong(r), [2, 2], 0))
    ensures PingPongInv(r, Start(PingPong(r), [2, 2], 0))
  {
    PingPongProper(r);
    TeamOfB2(r);
    StartKeeps(PingPong(r), [2, 2], 0, 0);
    StartKeeps(PingPong(r), [2, 2], 0, 1);
  }

  /** The state of the test case after a schedule. */
  function Reached(r: nat, schedule: seq<nat>): (s: State)
    ensures Shape(PingPong(r), s)
  {
    PingPongProper(r);
    After(PingPong(r), [2, 2], 0, schedule)
  }

  lemma ReachedInv(r: nat, schedule: seq<nat>)
    ensures PingPongInv(r, Reached(r, schedule))
  {
    hide PingPongInv, Run, PingPong, Start;
    PingPongStart(r);
    PingPongRun(r, Start(PingPong(r), [2, 2], 0), schedule);
  }

  /** Under every schedule the two threads greet in turn, "Thread 1" first. */
  lemma GreetingsAlternate(r: nat, schedule: seq<nat>)
    ensures exists m: nat :: m <= 2 * r && Reached(r, schedule).log == Chat(m)
  {
    ReachedInv(r, schedule);
    var s := Reached(r, schedule);
    hide Reached, PingPongInv, Chat;
    assert ChatInv(r, s) by { ChatOf(r, s); }
    PositionsBounded(r, s);
    assert Said(s.pos[0], s.pos[1]) <= 2 * r;
  }

  lemma PositionsBounded(r: nat, s: State)
    requires Shape(PingPong(r), s)
    ensures |s.pos| == 3 && s.pos[0] <= 3 * r + 1 && s.pos[1] <= 3 * r && s.pos[2] <= 3
  {
  }

  // ------------------------------------------------------------------ the end

  /** What a stuck thread is doing. */
  predicate WaitsAt(r: nat, s: State, t: nat, b: nat)
    requires Shape(PingPong(r), s)
  {
    At(PingPong(r), s, t, b) && s.stage[t] == Waiting
  }

  lemma StuckThreads(r: nat, s: State)
    requires Shape(PingPong(r), s) && PingPongInv(r, s) && Stuck(PingPong(r), s)
    ensures Finished(PingPong(r), s, 0) || WaitsAt(r, s, 0, 0) || WaitsAt(r, s, 0, 1)
    ensures Finished(PingPong(r), s, 1) || WaitsAt(r, s, 1, 0) || WaitsAt(r, s, 1, 1)
    ensures s.pos[2] >= 1 || WaitsAt(r, s, 2, 0)
    ensures Finished(PingPong(r), s, 2) || WaitsAt(r, s, 2, 0)
         || !Finished(PingPong(r), s, 0) || !Finished(PingPong(r), s, 1)
  {
    var p := PingPong(r);
    forall b: nat | b < |s.bar| ensures MutexInv(p, s, b) {
      assert b == 0 || b == 1;
    }
    forall t: nat | t < 3 && !Finished(p, s, t)
      ensures (Current(p, s, t).Wait? && s.stage[t] == Waiting)
           || (Current(p, s, t).Join? && !Finished(p, s, Current(p, s, t).u))
    {
      StuckShape(p, s, t);
    }
    hide BarrierInv, RoundInv, PairInv, Team, ChatInv, Stuck;
  }

  /** Two threads never wait at the same barrier in a stuck state. */
  lemma StuckAlone(r: nat, s: State, t: nat, u: nat, b: nat)
    requires Shape(PingPong(r), s) && Stuck(PingPong(r), s) && t < u < 3 && b < |s.bar|
    requires BarrierInv(PingPong(r), s, b) && s.bar[b].initial == 2
    ensures !(WaitsAt(r, s, t, b) && WaitsAt(r, s, u, b))
  {
    hide Shape, Stuck, BarrierInv, PingPong;
    StuckBarrierIncomplete(PingPong(r), s, b);
    var a := ArrivedSet(PingPong(r), s, b);
    assert WaitsAt(r, s, t, b) && t < |PingPong(r)| ==> t in a;
    assert WaitsAt(r, s, u, b) && u < |PingPong(r)| ==> u in a;
    Bigger({t, u}, a);
  }

  lemma StuckArrived(r: nat, s: State, t: nat, b: nat)
    requires Shape(PingPong(r), s) && PingPongInv(r, s) && Stuck(PingPong(r), s) && t < 3
    ensures Arrived(PingPong(r), s, t, b) ==> WaitsAt(r, s, t, b)
  {
    assert !CanStep(PingPong(r), s, t);
    hide PingPongInv;
  }

  /** If "Thread 1" were stuck at b1, nobody else would have arrived there. */
  lemma FirstAloneAtB1(r: nat, s: State)
    requires Shape(PingPong(r), s) && PingPongInv(r, s) && Stuck(PingPong(r), s) && WaitsAt(r, s, 0, 0)
    ensures !Arrived(PingPong(r), s, 1, 0) && !Arrived(PingPong(r), s, 2, 0) && Arrived(PingPong(r), s, 0, 0)
    ensures !WaitsAt(r, s, 1, 0) && Entered(PingPong(r), s, 2, 0) == 1
  {
    StuckAlone(r, s, 0, 1, 0);
    StuckAlone(r, s, 0, 2, 0);
    StuckArrived(r, s, 1, 0);
    StuckArrived(r, s, 2, 0);
    StuckThreads(r, s);
    OthersEntered(r, s);
    hide PingPongInv, Shape, Stuck, Entered;
  }

  /** If "Thread 1" were stuck at b1, "Thread 2" would be behind. */
  lemma FirstStuckAtB1(r: nat, s: State)
    requires Shape(PingPong(r), s) && PingPongInv(r, s) && Stuck(PingPong(r), s) && WaitsAt(r, s, 0, 0)
    ensures !WaitsAt(r, s, 1, 0)
    ensures Entered(PingPong(r), s, 1, 0) == s.bar[1].round - 1 && s.bar[1].round <= r
  {
    assert s.pos[0] % 3 == 0 && s.pos[0] <= 3 * r;
    hide BarrierInv, RoundInv, ChatInv, Team, Stuck, Entered, Shape, WaitsAt, PingPong;
    FirstAloneAtB1(r, s);
    FirstAtB1(r, s);
    FirstAtB2(r, s);
  }

  lemma SecondElsewhere(r: nat, s: State)
    requires Shape(PingPong(r), s) && PingPongInv(r, s)
    ensures Finished(PingPong(r), s, 1) ==> Entered(PingPong(r), s, 1, 0) == r
    ensures WaitsAt(r, s, 1, 1) ==> Entered(PingPong(r), s, 1, 0) == s.bar[1].round
  {
    SecondPosition(r, s);
    OthersEntered(r, s);
    hide BarrierInv, RoundInv, ChatInv, Team, Entered, PairInv;
  }

  /** "Thread 1" is not stuck at b1. */
  lemma FirstNotAtB1(r: nat, s: State)
    requires Shape(PingPong(r), s) && PingPongInv(r, s) && Stuck(PingPong(r), s)
    ensures !WaitsAt(r, s, 0, 0)
  {
    hide PingPongInv, Stuck, Entered, Shape, PingPong;
    if WaitsAt(r, s, 0, 0) {
      StuckThreads(r, s);
      SecondElsewhere(r, s);
      FirstStuckAtB1(r, s);
    }
  }

  /** Nor at b2. */
  lemma FirstNotAtB2(r: nat, s: State)
    requires Shape(PingPong(r), s) && PingPongInv(r, s) && Stuck(PingPong(r), s)
    ensures !WaitsAt(r, s, 0, 1)
  {
    StuckThreads(r, s);
    StuckAlone(r, s, 0, 1, 1);
    FirstAtB1(r, s);
    FirstAtB2(r, s);
    SecondPosition(r, s);
    OthersEntered(r, s);
    hide BarrierInv, RoundInv, ChatInv, Team, Stuck, Entered, Shape;
  }

  lemma FirstFinished(r: nat, s: State)
    requires Shape(PingPong(r), s) && PingPongInv(r, s) && Stuck(PingPong(r), s)
    ensures Finished(PingPong(r), s, 0)
  {
    hide PingPongInv, Stuck, Shape, PingPong;
    StuckThreads(r, s);
    FirstNotAtB1(r, s);
    FirstNotAtB2(r, s);
  }

  /** Nor is "Thread 2". */
  lemma SecondFinished(r: nat, s: State)
    requires Shape(PingPong(r), s) && PingPongInv(r, s) && Stuck(PingPong(r), s) && Finished(PingPong(r), s, 0)
    ensures Finished(PingPong(r), s, 1)
  {
    StuckThreads(r, s);
    FirstAtB1(r, s);
    FirstAtB2(r, s);
    SecondPosition(r, s);
    OthersEntered(r, s);
    hide BarrierInv, RoundInv, ChatInv, Team, Stuck;
  }

  /** Nor is main. */
  lemma MainFinished(r: nat, s: State)
    requires Shape(PingPong(r), s) && PingPongInv(r, s) && Stuck(PingPong(r), s)
    requires Finished(PingPong(r), s, 0) && Finished(PingPong(r), s, 1)
    ensures Finished(PingPong(r), s, 2)
  {
    StuckThreads(r, s);
    FirstAtB1(r, s);
    FirstAtB2(r, s);
    OthersEntered(r, s);
    hide BarrierInv, RoundInv, ChatInv, Team, Stuck;
  }

  /** Every schedule that leaves nobody able to move has brought all three threads to their ends,
      with R greetings exchanged, although b1 is made for two threads and called by three. */
  lemma TestCaseEnds(r: nat, schedule: seq<nat>)
    requires Stuck(PingPong(r), Reached(r, schedule))
    ensures AllFinished(PingPong(r), Reached(r, schedule)) && Reached(r, schedule).log == Chat(2 * r)
  {
    hide Reached, PingPongInv, Stuck, Chat;
    ReachedInv(r, schedule);
    var s := Reached(r, schedule);
    FirstFinished(r, s);
    SecondFinished(r, s);
    MainFinished(r, s);
    ChatOf(r, s);
    PositionsBounded(r, s);
    assert Said(3 * r + 1, 3 * r) == 2 * r;
  }

  lemma JoinedBoth(r: nat, s: State)
    requires Shape(PingPong(r), s) && JoinsDone(PingPong(r), s) && Finished(PingPong(r), s, 2)
    ensures AllFinished(PingPong(r), s)
  {
    var p := PingPong(r);
    assert p[2][1] == Join(0) && p[2][2] == Join(1);
    hide Shape;
  }

  /** When main has finished, and with it the process, both threads have finished, with R greetings
      exchanged. */
  lemma MainEndsLast(r: nat, schedule: seq<nat>)
    requires Finished(PingPong(r), Reached(r, schedule), 2)
    ensures AllFinished(PingPong(r), Reached(r, schedule)) && Reached(r, schedule).log == Chat(2 * r)
  {
    hide Run, PingPongInv, Chat, Start;
    var s := Reached(r, schedule);
    PingPongProper(r);
    JoinsAfter(PingPong(r), [2, 2], 0, schedule);
    JoinedBoth(r, s);
    hide Reached, Shape;
    assert Finished(PingPong(r), s, 0) && Finished(PingPong(r), s, 1);
    ReachedInv(r, schedule);
    ChatOf(r, s);
    PositionsBounded(r, s);
    assert Said(3 * r + 1, 3 * r) == 2 * r;
  }
}
