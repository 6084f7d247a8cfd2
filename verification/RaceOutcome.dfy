/** What the sequential race of RaceSequential comes to: who can have won, when Hare runs, which
    repositionings are applied, how long a race lasts, and the winner in closed form. */
module RaceOutcome {
  import opened RaceSequential
  import opened Arithmetic

  // ------------------------------------------------------------------ winner and positions

  /** The race is open exactly while nobody is at the finishing line; afterwards the winner, and
      nobody else, stands on it. */
  predicate Fair(c: Race, g: Globals) {
    && (g.open <==> g.turtle < c.finish && g.hare < c.finish && g.winner == '-')
    && (!g.open ==>
          || (g.winner == 'T' && g.turtle == c.finish && g.hare < c.finish)
          || (g.winner == 'H' && g.hare == c.finish && g.turtle < c.finish))
  }

  /** Each worker's turn keeps a race fair, and once somebody has won nothing moves any more; in
      particular the tie rule of Turtle never fires. */
  lemma TurnsKeepFair(c: Race, g: Globals)
    requires c.finish > 0 && Fair(c, g)
    ensures Fair(c, RandomizerTurn(c, g, g.tick)) && Fair(c, TurtleTurn(c, g)) && Fair(c, HareTurn(c, g))
        && Fair(c, ReportLine(c, g))
    ensures !g.open ==> RandomizerTurn(c, g, g.tick) == g && TurtleTurn(c, g) == g && HareTurn(c, g) == g
  {
  }

  lemma {:induction false} SimFairFrom(c: Race, n: nat)
    requires c.finish > 0
    ensures Fair(c, Sim(c, n))
  {
    if n > 0 && Sim(c, n - 1).open {
      SimFairFrom(c, n - 1);
      var g := Ticked(Sim(c, n - 1));
      TurnsKeepFair(c, g);
      var r := RandomizerTurn(c, g, g.tick);
      TurnsKeepFair(c, r);
      TurnsKeepFair(c, ReportLine(c, r));
      TurnsKeepFair(c, TurtleTurn(c, ReportLine(c, r)));
    } else if n > 0 {
      SimFairFrom(c, n - 1);
    }
  }

  /** Every round boundary is fair if and only if the finishing line lies ahead of the start. */
  lemma AlwaysFairIffFinishAhead(c: Race)
    ensures (forall n: nat :: Fair(c, Sim(c, n))) <==> c.finish > 0
  {
    if c.finish > 0 {
      forall n: nat ensures Fair(c, Sim(c, n)) {
        SimFairFrom(c, n);
      }
    } else {
      assert !Fair(c, Sim(c, 0));
    }
  }

  // ------------------------------------------------------------------ Hare's naps

  /** Hare decides whether to run in this turn. */
  predicate Decides(c: Race, g: Globals) {
    g.open && g.sleepCounter == c.hareSleepTime
  }

  /** The variables as Hare finds them at tick n. */
  function BeforeHare(c: Race, n: nat): Globals {
    var g := Ticked(Sim(c, n));
    TurtleTurn(c, ReportLine(c, RandomizerTurn(c, g, g.tick)))
  }

  /** The counter after n rounds of an open race with sleep time S. */
  function Counter(sleepTime: nat, n: nat): int {
    if n == 0 then sleepTime else (n - 1) % (sleepTime + 1)
  }

  lemma CounterAtStart(sleepTime: nat)
    ensures Counter(sleepTime, 0) == sleepTime
  {
  }

  lemma CounterNext(sleepTime: nat, n: nat)
    ensures Counter(sleepTime, n + 1) == if Counter(sleepTime, n) == sleepTime then 0 else Counter(sleepTime, n) + 1
  {
    ModNext(n - 1, sleepTime + 1);
  }

  lemma CounterInRound(c: Race, g: Globals)
    requires g.open && Turns(c, Ticked(g)).open
    ensures Turns(c, Ticked(g)).sleepCounter == if g.sleepCounter == c.hareSleepTime then 0 else g.sleepCounter + 1
  {
    var t := Ticked(g);
    var b := TurtleTurn(c, ReportLine(c, RandomizerTurn(c, t, t.tick)));
    OpenBeforeHare(c, b);
    assert b.open && b.sleepCounter == g.sleepCounter;
  }

  /** With a sleep time S, the counter after n rounds of an open race is n - 1 modulo S + 1. */
  lemma {:induction false} SleepCounter(c: Race, n: nat)
    requires c.hareSleepTime >= 0 && Sim(c, n).open
    ensures Sim(c, n).sleepCounter == Counter(c.hareSleepTime, n)
  {
    hide Turns, Counter;
    CounterAtStart(c.hareSleepTime);
    if n > 0 {
      SimOpenBefore(c, n - 1, n);
      SleepCounter(c, n - 1);
      CounterInRound(c, Sim(c, n - 1));
      CounterNext(c.hareSleepTime, n - 1);
    }
  }

  lemma OpenBeforeHare(c: Race, g: Globals)
    ensures HareTurn(c, g).open ==> g.open
  {
  }

  lemma CounterBeforeHare(c: Race, n: nat)
    ensures BeforeHare(c, n).sleepCounter == Sim(c, n).sleepCounter
  {
    hide Sim;
    CounterKept(c, Ticked(Sim(c, n)));
  }

  lemma CounterKept(c: Race, g: Globals)
    ensures TurtleTurn(c, ReportLine(c, RandomizerTurn(c, g, g.tick))).sleepCounter == g.sleepCounter
  {
  }

  /** Hare decides exactly at the multiples of S + 1. */
  lemma DecidesAtMultiples(c: Race, n: nat)
    requires c.hareSleepTime >= 0 && Sim(c, n).open && BeforeHare(c, n).open
    ensures Decides(c, BeforeHare(c, n)) <==> n % (c.hareSleepTime + 1) == 0
  {
    SleepCounter(c, n);
    CounterBeforeHare(c, n);
    ModNext(n - 1, c.hareSleepTime + 1);
  }

  // ------------------------------------------------------------------ repositionings

  function Due(r: seq<Reposition>, i: nat): int
    requires i < |r|
  {
    r[i].time
  }

  /** The first k entries have strictly increasing times, none negative, all below n. */
  predicate Rising(r: seq<Reposition>, k: nat, n: int)
    requires k <= |r|
  {
    && (forall i :: 0 <= i < k ==> 0 <= Due(r, i) < n)
    && (forall i, j :: 0 <= i < j < k ==> Due(r, i) < Due(r, j))
  }

  /** Index k is the length of the longest rising prefix with times below n. */
  predicate AppliedUpTo(r: seq<Reposition>, k: nat, n: int) {
    k <= |r| && Rising(r, k, n) && (k < |r| ==> !Rising(r, k + 1, n))
  }

  function NextIndex(r: seq<Reposition>, k: nat, n: int): nat {
    if k < |r| && r[k].time == n then k + 1 else k
  }

  lemma AppliedNone(r: seq<Reposition>)
    ensures AppliedUpTo(r, 0, 0)
  {
    if r != [] {
      assert !(0 <= Due(r, 0) < 0);
    }
  }

  lemma AppliedNext(r: seq<Reposition>, k: nat, n: nat)
    requires AppliedUpTo(r, k, n)
    ensures AppliedUpTo(r, NextIndex(r, k, n), n + 1)
  {
    assert k + 1 < |r| && Rising(r, k + 2, n + 1) ==> Due(r, k) < Due(r, k + 1) && Due(r, k + 1) < n + 1;
    assert k < |r| && Due(r, k) != n && Rising(r, k + 1, n + 1) ==> Rising(r, k + 1, n);
  }

  lemma IndexInRound(c: Race, g: Globals)
    requires g.open
    ensures Turns(c, Ticked(g)).index == NextIndex(c.reposition, g.index, g.tick + 1)
  {
    var t := Ticked(g);
    assert Turns(c, t).index == RandomizerTurn(c, t, t.tick).index;
  }

  /** The array index after n rounds of an open race. */
  lemma {:induction false} Applied(c: Race, n: nat)
    requires Sim(c, n).open
    ensures AppliedUpTo(c.reposition, Sim(c, n).index, n)
  {
    if n == 0 {
      AppliedNone(c.reposition);
    } else {
      SimOpenBefore(c, n - 1, n);
      Applied(c, n - 1);
      SimTick(c, n - 1);
      var g := Sim(c, n - 1);
      IndexInRound(c, g);
      AppliedNext(c.reposition, g.index, n - 1);
    }
  }

  /** In a race still open after n rounds, entry i has been applied if and only if the times of
      entries 0..i are non-negative, strictly increasing and below n. */
  lemma AppliedIff(c: Race, n: nat, i: nat)
    requires Sim(c, n).open && i < |c.reposition|
    ensures i < Sim(c, n).index <==> Rising(c.reposition, i + 1, n)
  {
    Applied(c, n);
  }

  // ------------------------------------------------------------------ length of the race

  /** An upper bound of 0 and all repositioning times. */
  predicate NoneAfter(c: Race, m: nat) {
    forall i :: 0 <= i < |c.reposition| ==> c.reposition[i].time <= m
  }

  lemma TurtleInRound(c: Race, g: Globals)
    requires g.turtle >= 0 && c.tortoiseSpeed > 0 && g.open && Turns(c, Ticked(g)).open
    ensures Turns(c, Ticked(g)).turtle >= c.tortoiseSpeed
    ensures (g.index < |c.reposition| ==> c.reposition[g.index].time != g.tick + 1)
            ==> Turns(c, Ticked(g)).turtle == g.turtle + c.tortoiseSpeed
  {
    var t := Ticked(g);
    var r := RandomizerTurn(c, t, t.tick);
    OpenBeforeHare(c, TurtleTurn(c, ReportLine(c, r)));
    assert r.open && r.turtle >= 0;
    assert TurtleTurn(c, ReportLine(c, r)).turtle == r.turtle + c.tortoiseSpeed;
    assert Turns(c, t).turtle == TurtleTurn(c, ReportLine(c, r)).turtle;
  }

  /** What the turtle has walked at least since the last repositioning. */
  function Walked(c: Race, rounds: int): int {
    if rounds <= 0 then 0 else rounds * c.tortoiseSpeed
  }

  lemma WalkedNext(c: Race, rounds: int)
    ensures rounds >= 0 ==> Walked(c, rounds + 1) == Walked(c, rounds) + c.tortoiseSpeed
    ensures rounds <= 0 ==> Walked(c, rounds) == 0
  {
  }

  lemma TurtleWalksOn(c: Race, m: nat, n: nat, g: Globals)
    requires c.tortoiseSpeed > 0 && NoneAfter(c, m) && g.open && Turns(c, Ticked(g)).open
    requires g.tick == n - 1 && g.turtle >= 0 && g.turtle >= Walked(c, n - m)
    ensures Turns(c, Ticked(g)).turtle >= 0 && Turns(c, Ticked(g)).turtle >= Walked(c, n + 1 - m)
  {
    hide Turns, Walked;
    TurtleInRound(c, g);
    WalkedNext(c, n - m);
    WalkedNext(c, n + 1 - m);
  }

  /** After the last repositioning the turtle of an open race has walked every round. */
  lemma {:induction false} TurtleProgress(c: Race, m: nat, n: nat)
    requires c.tortoiseSpeed > 0 && NoneAfter(c, m) && Sim(c, n).open
    ensures Sim(c, n).turtle >= 0 && Sim(c, n).turtle >= Walked(c, n - m)
  {
    hide Turns, Walked, NoneAfter;
    if n > 0 {
      SimOpenBefore(c, n - 1, n);
      TurtleProgress(c, m, n - 1);
      SimTick(c, n - 1);
      TurtleWalksOn(c, m, n - 1, Sim(c, n - 1));
    } else {
      WalkedNext(c, 0 - m);
    }
  }

  /** With a moving turtle the race is over at the latest in round m + ceil(F / speed), where m
      bounds the repositioning times. */
  lemma EndsInTime(c: Race, m: nat)
    requires c.tortoiseSpeed > 0 && c.finish > 0 && NoneAfter(c, m)
    ensures CeilDiv(c.finish, c.tortoiseSpeed) > 0
    ensures !Sim(c, m + CeilDiv(c.finish, c.tortoiseSpeed)).open
  {
    var k := CeilDiv(c.finish, c.tortoiseSpeed);
    WalkedToFinish(c);
    hide CeilDiv, Walked, Sim;
    SimFairFrom(c, m + k);
    if Sim(c, m + k).open {
      TurtleProgress(c, m, m + k);
    }
  }

  lemma WalkedToFinish(c: Race)
    requires c.tortoiseSpeed > 0 && c.finish > 0
    ensures var k := CeilDiv(c.finish, c.tortoiseSpeed); k > 0 && Walked(c, k) >= c.finish
  {
    CeilDivLeast(c.finish, c.tortoiseSpeed, 0);
    CeilDivBounds(c.finish, c.tortoiseSpeed);
    hide CeilDiv;
  }

  // ------------------------------------------------------------------ the winner in closed form

  /** Nobody is repositioned and the hare never gets far enough ahead to ignore its decision. */
  predicate Plain(c: Race) {
    c.tortoiseSpeed > 0 && c.hareSpeed > 0 && c.finish > 0 && c.hareSleepTime >= 0
    && c.reposition == [] && c.sleepLead >= c.finish
  }

  /** How often Hare has decided to run before tick n. */
  function Runs(c: Race, n: nat): nat
    requires c.hareSleepTime >= 0
  {
    CeilDiv(n, c.hareSleepTime + 1)
  }

  /** Where the players are after n rounds if nobody has arrived. */
  function TurtleAt(c: Race, n: nat): int { n * c.tortoiseSpeed }

  function HareAt(c: Race, n: nat): int
    requires c.hareSleepTime >= 0
  {
    Runs(c, n) * c.hareSpeed
  }

  /** The tick at which Turtle reaches the finishing line if nobody else has. */
  function TurtleArrival(c: Race): int
    requires Plain(c)
  {
    CeilDiv(c.finish, c.tortoiseSpeed) - 1
  }

  /** The tick at which Hare reaches the finishing line if nobody else has. */
  function HareArrival(c: Race): int
    requires Plain(c)
  {
    (c.hareSleepTime + 1) * (CeilDiv(c.finish, c.hareSpeed) - 1)
  }

  /** An open plain race after n rounds, as far as the players are concerned. */
  predicate PlainAfter(c: Race, n: nat, g: Globals)
    requires Plain(c)
  {
    && g.open && g.index == 0
    && g.turtle == TurtleAt(c, n)
    && g.hare == HareAt(c, n)
    && g.sleepCounter == Counter(c.hareSleepTime, n)
  }

  lemma RunsNext(c: Race, n: nat)
    requires c.hareSleepTime >= 0
    ensures Runs(c, n + 1) == if n % (c.hareSleepTime + 1) == 0 then Runs(c, n) + 1 else Runs(c, n)
    ensures Counter(c.hareSleepTime, n) == c.hareSleepTime <==> n % (c.hareSleepTime + 1) == 0
  {
    CeilDivNext(n, c.hareSleepTime + 1);
    ModNext(n - 1, c.hareSleepTime + 1);
    hide CeilDiv;
  }

  /** Turtle's way, round by round. */
  lemma TurtleTimetable(c: Race, n: nat)
    requires Plain(c)
    ensures TurtleAt(c, n) >= 0 && TurtleAt(c, n + 1) == TurtleAt(c, n) + c.tortoiseSpeed
    ensures TurtleAt(c, n + 1) >= c.finish <==> n >= TurtleArrival(c)
  {
    CeilDivLeast(c.finish, c.tortoiseSpeed, n + 1);
    assert (n + 1) * c.tortoiseSpeed == n * c.tortoiseSpeed + c.tortoiseSpeed;
    hide CeilDiv;
  }

  /** Hare's way, round by round: it runs at the multiples of S + 1, its arrival among them. */
  lemma HareTimetable(c: Race, n: nat)
    requires Plain(c)
    ensures HareAt(c, n + 1) == HareAt(c, n) + if n % (c.hareSleepTime + 1) == 0 then c.hareSpeed else 0
    ensures HareAt(c, n + 1) >= c.finish <==> n >= HareArrival(c)
    ensures n == HareArrival(c) ==> n % (c.hareSleepTime + 1) == 0
  {
    hide CeilDiv, Runs;
    RunsNext(c, n);
    assert (Runs(c, n) + 1) * c.hareSpeed == Runs(c, n) * c.hareSpeed + c.hareSpeed;
    HareArrives(c, n);
    ArrivalIsMultiple(c);
  }

  lemma HareArrives(c: Race, n: nat)
    requires Plain(c)
    ensures HareAt(c, n + 1) >= c.finish <==> n >= HareArrival(c)
  {
    var m := CeilDiv(c.finish, c.hareSpeed);
    CeilDivLeast(c.finish, c.hareSpeed, Runs(c, n + 1));
    CeilDivLeast(n + 1, c.hareSleepTime + 1, m - 1);
    assert HareArrival(c) == (m - 1) * (c.hareSleepTime + 1);
    hide CeilDiv;
  }

  lemma ArrivalIsMultiple(c: Race)
    requires Plain(c)
    ensures HareArrival(c) % (c.hareSleepTime + 1) == 0
  {
    hide CeilDiv;
    var m := CeilDiv(c.finish, c.hareSpeed);
    assert HareArrival(c) == (m - 1) * (c.hareSleepTime + 1) + 0;
    DivModUnique(HareArrival(c), c.hareSleepTime + 1, m - 1, 0);
  }

  /** Turtle's half of a round of the plain race. */
  lemma PlainTurtle(c: Race, n: nat, g: Globals)
    requires Plain(c) && PlainAfter(c, n, g)
    ensures var t := Ticked(g);
            var r := ReportLine(c, RandomizerTurn(c, t, t.tick));
            && r.(printed := t.printed) == t
            && TurtleTurn(c, r) == if n >= TurtleArrival(c) then r.(turtle := c.finish, winner := 'T', open := false)
                                   else r.(turtle := TurtleAt(c, n + 1))
  {
    hide TurtleAt, HareAt, TurtleArrival, Counter;
    TurtleTimetable(c, n);
  }

  /** Hare's half of a round of the plain race. */
  lemma PlainHare(c: Race, n: nat, g: Globals, b: Globals)
    requires Plain(c) && PlainAfter(c, n, g) && n < TurtleArrival(c) && g.hare < c.finish
    requires b.open && b.hare == g.hare && b.sleepCounter == g.sleepCounter && b.turtle == TurtleAt(c, n + 1)
    ensures var h := HareTurn(c, b);
            if n == HareArrival(c) then !h.open && h.winner == 'H'
            else n < HareArrival(c) ==>
                   h.(sleepCounter := b.sleepCounter, hare := b.hare) == b
                   && h.hare == HareAt(c, n + 1) && h.hare < c.finish
                   && h.sleepCounter == Counter(c.hareSleepTime, n + 1)
  {
    hide TurtleAt, HareAt, TurtleArrival, HareArrival, Counter, Runs, CeilDiv;
    TurtleTimetable(c, n + 1);
    HareTimetable(c, n);
    RunsNext(c, n);
    CounterNext(c.hareSleepTime, n);
  }

  lemma NothingRun(c: Race)
    requires Plain(c)
    ensures PlainAfter(c, 0, StartingLine(c))
  {
    DivModUnique(c.hareSleepTime, c.hareSleepTime + 1, 0, c.hareSleepTime);
  }

  lemma {:induction false} PlainUntilArrival(c: Race, n: nat)
    requires Plain(c) && n <= TurtleArrival(c) && n <= HareArrival(c)
    ensures PlainAfter(c, n, Sim(c, n)) && Sim(c, n).hare < c.finish
  {
    hide TurtleAt, HareAt, TurtleArrival, HareArrival, Counter;
    if n > 0 {
      PlainUntilArrival(c, n - 1);
      var g := Sim(c, n - 1);
      PlainTurtle(c, n - 1, g);
      var t := Ticked(g);
      PlainHare(c, n - 1, g, TurtleTurn(c, ReportLine(c, RandomizerTurn(c, t, t.tick))));
    } else {
      NothingRun(c);
    }
  }

  /** The winner of the plain race in closed form: it is over in the round of the first arrival,
      and Turtle wins if and only if ceil(F / ts) - 1 <= (S + 1) (ceil(F / hs) - 1). */
  lemma WinnerInClosedForm(c: Race)
    requires Plain(c)
    ensures var n := if TurtleArrival(c) <= HareArrival(c) then TurtleArrival(c) else HareArrival(c);
            n >= 0 && WinsAfter(c, n + 1, if TurtleArrival(c) <= HareArrival(c) then 'T' else 'H')
  {
    hide TurtleAt, HareAt, TurtleArrival, HareArrival, Counter;
    ArrivalsNonNegative(c);
    var n := if TurtleArrival(c) <= HareArrival(c) then TurtleArrival(c) else HareArrival(c);
    PlainUntilArrival(c, n);
    var g := Sim(c, n);
    PlainTurtle(c, n, g);
    var t := Ticked(g);
    if n < TurtleArrival(c) {
      PlainHare(c, n, g, TurtleTurn(c, ReportLine(c, RandomizerTurn(c, t, t.tick))));
    }
  }

  lemma ArrivalsNonNegative(c: Race)
    requires Plain(c)
    ensures TurtleArrival(c) >= 0 && HareArrival(c) >= 0
  {
    CeilDivLeast(c.finish, c.tortoiseSpeed, 0);
    CeilDivLeast(c.finish, c.hareSpeed, 0);
  }

  /** The lines of the plain race in closed form: at tick k Turtle has walked k times and Hare has run
      ceil(k / (S + 1)) times. */
  lemma PlainLines(c: Race, i: nat)
    requires Plain(c)
    ensures var n := if TurtleArrival(c) <= HareArrival(c) then TurtleArrival(c) else HareArrival(c);
            var lines := Sim(c, n + 1).printed;
      n >= 0 && (i < |lines| ==>
        && 0 <= lines[i].time <= n
        && lines[i].turtle == lines[i].time * c.tortoiseSpeed
        && lines[i].hare == CeilDiv(lines[i].time, c.hareSleepTime + 1) * c.hareSpeed)
  {
    hide TurtleArrival, HareArrival, Counter, CeilDiv;
    WinnerInClosedForm(c);
    var n := if TurtleArrival(c) <= HareArrival(c) then TurtleArrival(c) else HareArrival(c);
    SimLines(c, n + 1);
    SimTick(c, n + 1);
    var lines := Sim(c, n + 1).printed;
    if i < |lines| {
      assert LineRight(c, lines[i], n);
      PlainUntilArrival(c, lines[i].time);
    }
    hide Sim, Turns;
  }

  // ------------------------------------------------------------------ single moves

  function Clamp(x: int, low: int, high: int): int {
    if x < low then low else if x > high then high else x
  }

  /** Hare runs at tick n exactly if n is a multiple of S + 1 and its lead is not too large. */
  lemma HareRunsIff(c: Race, n: nat)
    requires c.hareSleepTime >= 0 && Sim(c, n).open && BeforeHare(c, n).open
    ensures var b := BeforeHare(c, n);
            var runs := n % (c.hareSleepTime + 1) == 0 && b.hare - b.turtle <= c.sleepLead;
            HareTurn(c, b).hare == if !runs then b.hare
                                   else if b.hare + c.hareSpeed < c.finish then b.hare + c.hareSpeed
                                   else c.finish
  {
    hide BeforeHare, Sim;
    DecidesAtMultiples(c, n);
  }

  /** A repositioning at its time moves its player by its distance, but not off the track, and nobody
      else; a character other than H and T moves nobody. */
  lemma RepositioningMoves(c: Race, n: nat)
    requires c.finish > 0 && Sim(c, n).open && Sim(c, n).index < |c.reposition|
    requires c.reposition[Sim(c, n).index].time == n
    ensures var g := Sim(c, n);
            var e := c.reposition[g.index];
            var r := RandomizerTurn(c, Ticked(g), n);
      && r.index == g.index + 1
      && r.hare == (if e.player == 'H' then Clamp(g.hare + e.distance, 0, c.finish) else g.hare)
      && r.turtle == (if e.player == 'T' then Clamp(g.turtle + e.distance, 0, c.finish) else g.turtle)
      && r.open == (r.hare < c.finish && r.turtle < c.finish)
  {
    SimFairFrom(c, n);
    hide Sim;
  }
}
