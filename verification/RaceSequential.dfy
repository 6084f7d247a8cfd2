/** The plain sequential race of hare_tortoise.c: the shared variables, what one turn of each
    worker does to them, and the simulation that plays the turns one after the other.  The thread
    machine of RaceThreads is proved to refine it. */
module RaceSequential {

  /** Which distance variable an update is about. */
  datatype Player = Tortoise | Rabbit

  /** One decision of the Randomizer.  `player` is any character, as in the source. */
  datatype Reposition = Reposition(player: char, time: int, distance: int)

  datatype Settings = Settings(
    printingDelay: int,
    tortoiseSpeed: int,
    hareSpeed: int,
    hareSleepTime: int,
    sleepLead: int,
    finish: int,
    reposition: seq<Reposition>)

  /** `clock_tick % printing_delay` is undefined for a delay of zero; nothing else is restricted. */
  type Race = c: Settings | c.printingDelay != 0 witness Settings(1, 1, 1, 0, 0, 1, [])

  /** One line printed by Report. */
  datatype Line = Line(hare: int, turtle: int, time: int)

  /** The shared variables, together with the Randomizer's `array_index` and the printed lines. */
  datatype Globals = Globals(
    tick: int,
    open: bool,
    turtle: int,
    hare: int,
    sleepCounter: int,
    winner: char,
    index: nat,
    printed: seq<Line>)

  function Distance(g: Globals, p: Player): int {
    if p == Tortoise then g.turtle else g.hare
  }

  function WithDistance(g: Globals, p: Player, d: int): Globals {
    if p == Tortoise then g.(turtle := d) else g.(hare := d)
  }

  function Letter(p: Player): char {
    if p == Tortoise then 'T' else 'H'
  }

  /** Moving a player, and closing the race when the finishing line is reached. */
  function Moved(c: Race, g: Globals, p: Player, d: int): Globals {
    var to := Distance(g, p) + d;
    if to >= c.finish then WithDistance(g, p, c.finish).(winner := Letter(p), open := false)
    else WithDistance(g, p, to)
  }

  function TurtleTurn(c: Race, g: Globals): Globals {
    if g.open then Moved(c, g, Tortoise, c.tortoiseSpeed)
    else if g.winner == 'H' && g.hare == g.turtle then g.(winner := 'T')
    else g
  }

  function HareTurn(c: Race, g: Globals): Globals {
    if !g.open then g
    else if g.sleepCounter != c.hareSleepTime then g.(sleepCounter := g.sleepCounter + 1)
    else if g.hare - g.turtle <= c.sleepLead then Moved(c, g, Rabbit, c.hareSpeed).(sleepCounter := 0)
    else g.(sleepCounter := 0)
  }

  /** A repositioned player who would end up behind the starting line is put on it instead. */
  function Repositioned(c: Race, g: Globals, p: Player, d: int): Globals {
    if Distance(g, p) + d < 0 then WithDistance(g, p, 0) else Moved(c, g, p, d)
  }

  function RandomizerTurn(c: Race, g: Globals, now: int): Globals {
    if !g.open || g.index >= |c.reposition| || c.reposition[g.index].time != now then g
    else
      var r := c.reposition[g.index];
      (if r.player == 'H' then Repositioned(c, g, Rabbit, r.distance)
       else if r.player == 'T' then Repositioned(c, g, Tortoise, r.distance)
       else g).(index := g.index + 1)
  }

  function ReportLine(c: Race, g: Globals): Globals {
    if g.tick % c.printingDelay == 0 then g.(printed := g.printed + [Line(g.hare, g.turtle, g.tick)]) else g
  }

  function Ticked(g: Globals): Globals {
    g.(tick := g.tick + 1)
  }

  /** Everything that happens after the clock has ticked. */
  function Turns(c: Race, g: Globals): Globals {
    HareTurn(c, TurtleTurn(c, ReportLine(c, RandomizerTurn(c, g, g.tick))))
  }

  function StartingLine(c: Race): Globals {
    Globals(-1, true, 0, 0, c.hareSleepTime, '-', 0, [])
  }

  /** The race after at most n rounds; a closed race stays as it is. */
  function Sim(c: Race, n: nat): Globals {
    if n == 0 then StartingLine(c)
    else var g := Sim(c, n - 1); if g.open then Turns(c, Ticked(g)) else g
  }

  lemma {:induction false} SimTick(c: Race, n: nat)
    ensures -1 <= Sim(c, n).tick < n
    ensures Sim(c, n).open ==> Sim(c, n).tick == n - 1
    ensures n > 0 && Sim(c, n - 1).open ==> Sim(c, n).tick == n - 1
  {
    if n > 0 {
      SimTick(c, n - 1);
      if Sim(c, n - 1).open {
        TurnsKeepTick(c, Ticked(Sim(c, n - 1)));
      }
    }
    hide Turns;
  }

  lemma TurnsKeepTick(c: Race, g: Globals)
    ensures Turns(c, g).tick == g.tick
  {
  }

  /** Once closed, no further round changes anything. */
  lemma {:induction false} SimStable(c: Race, m: nat, n: nat)
    requires m <= n && !Sim(c, m).open
    ensures Sim(c, n) == Sim(c, m)
    decreases n - m
  {
    if m < n {
      SimStable(c, m, n - 1);
    }
  }

  /** An open race was open after every earlier round. */
  lemma {:induction false} SimOpenBefore(c: Race, m: nat, n: nat)
    requires m <= n && Sim(c, n).open
    ensures Sim(c, m).open
  {
    if !Sim(c, m).open {
      SimStable(c, m, n);
    }
  }

  /** The tie rule of TurtleTurn has nothing left to do. */
  predicate Settled(g: Globals) {
    !g.open ==> !(g.winner == 'H' && g.hare == g.turtle)
  }

  /** After any number of full rounds, waking Turtle once more cannot change the winner. */
  lemma {:induction false} SimSettled(c: Race, n: nat)
    ensures Settled(Sim(c, n))
  {
    if n > 0 && Sim(c, n - 1).open {
      var g := ReportLine(c, RandomizerTurn(c, Ticked(Sim(c, n - 1)), Ticked(Sim(c, n - 1)).tick));
      var t := TurtleTurn(c, g);
      assert t.open ==> t.turtle < c.finish;
      assert Sim(c, n) == HareTurn(c, t);
    } else if n > 0 {
      SimSettled(c, n - 1);
    }
  }

  /** The winner of the sequential race, once it has one. */
  ghost predicate SequentialWinner(c: Race, x: char) {
    exists n: nat :: WinsAfter(c, n, x)
  }

  /** The race closes in round n (counted from one) with winner x. */
  predicate WinsAfter(c: Race, n: nat, x: char) {
    n > 0 && Sim(c, n - 1).open && !Sim(c, n).open && Sim(c, n).winner == x
  }

  lemma SequentialWinnerUnique(c: Race, m: nat, n: nat, x: char, y: char)
    requires WinsAfter(c, m, x) && WinsAfter(c, n, y)
    ensures m == n && x == y
  {
    hide Sim;
    if m < n {
      SimStable(c, m, n - 1);
    } else if n < m {
      SimStable(c, n, m - 1);
    }
  }

  // ------------------------------------------------------------------ printed lines

  /** A line printed at tick k = l.time, a multiple of the printing delay, shows both distances as they
      are after Randomizer's turn and before the other two. */
  predicate LineRight(c: Race, l: Line, tick: int) {
    && 0 <= l.time <= tick && l.time % c.printingDelay == 0
    && var g := RandomizerTurn(c, Ticked(Sim(c, l.time)), l.time);
       l.hare == g.hare && l.turtle == g.turtle
  }

  predicate Shown(lines: seq<Line>, k: int) {
    exists i :: 0 <= i < |lines| && lines[i].time == k
  }

  /** The lines printed up to a tick: one for every multiple of the printing delay, in order. */
  ghost predicate LinesRight(c: Race, lines: seq<Line>, tick: int) {
    && (forall i :: 0 <= i < |lines| ==> LineRight(c, lines[i], tick))
    && (forall i, j :: 0 <= i < j < |lines| ==> lines[i].time < lines[j].time)
    && (forall k :: 0 <= k <= tick && k % c.printingDelay == 0 ==> Shown(lines, k))
  }

  lemma {:induction false} SimLines(c: Race, n: nat)
    ensures LinesRight(c, Sim(c, n).printed, Sim(c, n).tick)
  {
    hide Turns, LinesRight, RandomizerTurn, ReportLine;
    if n > 0 {
      SimLines(c, n - 1);
      SimTick(c, n - 1);
      var g := Sim(c, n - 1);
      if g.open {
        TurnsPrint(c, Ticked(g));
        var r := RandomizerTurn(c, Ticked(g), n - 1);
        assert r.(printed := g.printed) == r;
        LinesNext(c, n - 1, g.printed);
      }
    } else {
      NoLines(c);
    }
  }

  lemma NoLines(c: Race)
    ensures LinesRight(c, [], -1)
  {
  }

  lemma TurnsPrint(c: Race, g: Globals)
    ensures Turns(c, g).printed == ReportLine(c, RandomizerTurn(c, g, g.tick)).printed
    ensures RandomizerTurn(c, g, g.tick).printed == g.printed && Turns(c, g).tick == g.tick
  {
  }

  /** The lines of one more tick. */
  lemma LinesNext(c: Race, n: nat, lines: seq<Line>)
    requires LinesRight(c, lines, n - 1) && Sim(c, n).tick == n - 1
    ensures var g := RandomizerTurn(c, Ticked(Sim(c, n)), n).(printed := lines);
            g.tick == n && LinesRight(c, ReportLine(c, g).printed, n)
  {
    hide Sim;
    var r := RandomizerTurn(c, Ticked(Sim(c, n)), n);
    assert r.tick == n;
    hide RandomizerTurn;
    var g := r.(printed := lines);
    var all := ReportLine(c, g).printed;
    ShownNext(c, lines, Line(g.hare, g.turtle, n));
    assert forall i :: 0 <= i < |lines| ==> all[i] == lines[i];
    forall i | 0 <= i < |all| ensures LineRight(c, all[i], n) {
      if i < |lines| {
        assert LineRight(c, lines[i], n - 1);
      }
    }
  }

  lemma ShownNext(c: Race, lines: seq<Line>, l: Line)
    requires forall k :: 0 <= k < l.time && k % c.printingDelay == 0 ==> Shown(lines, k)
    ensures var all := if l.time % c.printingDelay == 0 then lines + [l] else lines;
            forall k :: 0 <= k <= l.time && k % c.printingDelay == 0 ==> Shown(all, k)
  {
    var all := if l.time % c.printingDelay == 0 then lines + [l] else lines;
    forall k | 0 <= k <= l.time && k % c.printingDelay == 0 ensures Shown(all, k) {
      if k < l.time {
        assert Shown(lines, k);
        var i :| 0 <= i < |lines| && lines[i].time == k;
        assert all[i].time == k;
      } else {
        assert all[|lines|].time == k;
      }
    }
  }

  /** The action sections of the three thread functions, on the variables they update in place. */
  class Track {
    const race: Race
    var clockTick: int
    var noWinner: bool
    var turtleDistance: int
    var hareDistance: int
    var hareSleepCounter: int
    var overallWinner: char
    var arrayIndex: nat
    ghost var printed: seq<Line>

    ghost function Value(): Globals
      reads this
    {
      Globals(clockTick, noWinner, turtleDistance, hareDistance, hareSleepCounter, overallWinner, arrayIndex, printed)
    }

    constructor (race: Race)
      ensures this.race == race && Value() == StartingLine(race)
    {
      this.race := race;
      clockTick, noWinner, turtleDistance, hareDistance := -1, true, 0, 0;
      hareSleepCounter := race.hareSleepTime;
      overallWinner, arrayIndex, printed := '-', 0, [];
    }

    method TurtleAction()
      modifies this
      ensures Value() == TurtleTurn(race, old(Value()))
    {
      if noWinner {
        turtleDistance := turtleDistance + race.tortoiseSpeed;
        if turtleDistance >= race.finish {
          overallWinner := 'T';
          turtleDistance := race.finish;
          noWinner := false;
        }
      } else if overallWinner == 'H' && hareDistance == turtleDistance {
        overallWinner := 'T';
      }
    }

    method HareAction()
      modifies this
      ensures Value() == HareTurn(race, old(Value()))
    {
      if noWinner {
        if hareSleepCounter == race.hareSleepTime {
          if hareDistance - turtleDistance <= race.sleepLead {
            hareDistance := hareDistance + race.hareSpeed;
            if hareDistance >= race.finish {
              overallWinner := 'H';
              hareDistance := race.finish;
              noWinner := false;
            }
          }
          hareSleepCounter := 0;
        } else {
          hareSleepCounter := hareSleepCounter + 1;
        }
      }
    }

    method RandomizerAction(currTime: int)
      modifies this
      ensures Value() == RandomizerTurn(race, old(Value()), currTime)
    {
      if noWinner {
        if arrayIndex < |race.reposition| && race.reposition[arrayIndex].time == currTime {
          var entry := race.reposition[arrayIndex];
          if entry.player == 'H' {
            hareDistance := hareDistance + entry.distance;
            if hareDistance < 0 {
              hareDistance := 0;
            } else if hareDistance >= race.finish {
              overallWinner := 'H';
              hareDistance := race.finish;
              noWinner := false;
            }
          } else if entry.player == 'T' {
            turtleDistance := turtleDistance + entry.distance;
            if turtleDistance < 0 {
              turtleDistance := 0;
            } else if turtleDistance >= race.finish {
              overallWinner := 'T';
              turtleDistance := race.finish;
              noWinner := false;
            }
          }
          arrayIndex := arrayIndex + 1;
        }
      }
    }

    /** The line of Report between the turns of Randomizer and Turtle. */
    method PrintLine()
      modifies this
      ensures Value() == ReportLine(race, old(Value()))
    {
      if clockTick % race.printingDelay == 0 {
        printed := printed + [Line(hareDistance, turtleDistance, clockTick)];
      }
    }

    /** One round of Report's loop, with each worker's turn in its place. */
    method Round()
      modifies this
      ensures Value() == Turns(race, Ticked(old(Value())))
    {
      clockTick := clockTick + 1;
      RandomizerAction(clockTick);
      PrintLine();
      TurtleAction();
      HareAction();
    }

    /** At most n rounds of a new race. */
    method Play(n: nat)
      requires Value() == StartingLine(race)
      modifies this
      ensures Value() == Sim(race, n)
    {
      var i := 0;
      while i < n && noWinner
        invariant i <= n && Value() == Sim(race, i)
      {
        Round();
        i := i + 1;
      }
      if i < n {
        SimStable(race, i, n);
      }
    }
  }
}
