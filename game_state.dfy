/**
 * `GameStateManager`: a two-minute countdown that wins the game when it
 * runs out, a game-over that only a playing game can reach, and pausing.
 */
module GameStateManagement {
  import opened Geometry
  import opened GameConfig

  datatype GameState = Playing | Won | GameOver | Paused

  /** The manager's two fields. */
  datatype Clock = Clock(timeRemaining: real, state: GameState)

  /** A game that has ended; only `Reset` leaves these states. */
  predicate Ended(g: GameState) { g == Won || g == GameOver }

  function Initial(): (c: Clock)
    ensures c.state == Playing && c.timeRemaining == GameDurationSeconds as real
  {
    Clock(GameDurationSeconds as real, Playing)
  }

  /** `Update`: the countdown runs only while playing, and reaching zero wins. */
  function TickClock(c: Clock, dt: real): (r: Clock)
    ensures c.state != Playing ==> r == c
    ensures c.state == Playing && c.timeRemaining - dt > 0.0 ==> r == Clock(c.timeRemaining - dt, Playing)
    ensures c.state == Playing && c.timeRemaining - dt <= 0.0 ==> r == Clock(0.0, Won)
    ensures c.state == Playing ==> r.timeRemaining >= 0.0
    ensures dt >= 0.0 && c.timeRemaining >= 0.0 ==> r.timeRemaining <= c.timeRemaining
  {
    if c.state == Playing then
      var t := c.timeRemaining - dt;
      if t <= 0.0 then Clock(0.0, Won) else Clock(t, Playing)
    else c
  }

  function LoseClock(c: Clock): (r: Clock)
    ensures r.timeRemaining == c.timeRemaining
    ensures r.state == (if c.state == Playing then GameOver else c.state)
  {
    if c.state == Playing then c.(state := GameOver) else c
  }

  function PauseClock(c: Clock): (r: Clock)
    ensures r.timeRemaining == c.timeRemaining
    ensures r.state == (if c.state == Playing then Paused else c.state)
  {
    if c.state == Playing then c.(state := Paused) else c
  }

  function ResumeClock(c: Clock): (r: Clock)
    ensures r.timeRemaining == c.timeRemaining
    ensures r.state == (if c.state == Paused then Playing else c.state)
  {
    if c.state == Paused then c.(state := Playing) else c
  }

  /** `TimeRemainingSeconds`: the remaining time rounded up to whole seconds. */
  function Seconds(c: Clock): (n: int)
    ensures n as real - 1.0 < c.timeRemaining <= n as real
    ensures c.timeRemaining >= 0.0 ==> n >= 0
  {
    Ceiling(c.timeRemaining)
  }

  /** What the clock always satisfies when time only moves forward: the
      remaining time lies in [0, GameDurationSeconds], and it is zero exactly
      when the game has been won. */
  ghost predicate Valid(c: Clock) {
    0.0 <= c.timeRemaining <= GameDurationSeconds as real &&
    (c.timeRemaining == 0.0 <==> c.state == Won)
  }

  lemma {:induction false} OperationsKeepValid(c: Clock, dt: real)
    requires Valid(c) && dt >= 0.0
    ensures Valid(TickClock(c, dt)) && Valid(LoseClock(c)) && Valid(PauseClock(c)) && Valid(ResumeClock(c))
    ensures Valid(Initial())
  {
    if c.state == Playing {
      assert c.timeRemaining > 0.0;
    }
  }

  /** An ended game stays ended: no update, pause, resume or repeated
      game-over changes it. */
  lemma EndedIsFinal(c: Clock, dt: real)
    requires Ended(c.state)
    ensures TickClock(c, dt) == c && LoseClock(c) == c && PauseClock(c) == c && ResumeClock(c) == c
  {
  }

  /** Time is frozen while paused, and pausing then resuming a playing game
      restores it exactly. */
  lemma PauseResume(c: Clock, dt: real)
    ensures c.state == Paused ==> TickClock(c, dt) == c
    ensures c.state == Playing ==> ResumeClock(PauseClock(c)) == c
    ensures LoseClock(LoseClock(c)) == LoseClock(c)
  {
  }

  /** A sequence of updates. */
  function Run(c: Clock, dts: seq<real>): Clock
    decreases |dts|
  {
    if dts == [] then c else Run(TickClock(c, dts[0]), dts[1..])
  }

  /** Every run of updates, from a valid clock, keeps it valid and never
      moves it back from an ended state. */
  lemma {:induction false} RunValid(c: Clock, dts: seq<real>)
    requires Valid(c)
    requires forall i :: 0 <= i < |dts| ==> dts[i] >= 0.0
    ensures Valid(Run(c, dts))
    ensures Ended(c.state) ==> Run(c, dts) == c
    decreases |dts|
  {
    if dts != [] {
      OperationsKeepValid(c, dts[0]);
      RunValid(TickClock(c, dts[0]), dts[1..]);
    }
  }

  /** A game played uninterrupted for its full duration is over by then. */
  lemma {:induction false} RunOut(c: Clock, dts: seq<real>)
    requires Valid(c)
    requires forall i :: 0 <= i < |dts| ==> dts[i] >= 0.0
    requires Sum(dts) >= c.timeRemaining && c.state == Playing
    ensures Run(c, dts).state == Won
    decreases |dts|
  {
    if dts != [] {
      var c' := TickClock(c, dts[0]);
      if c'.state == Playing {
        RunOut(c', dts[1..]);
      } else {
        RunValid(c', dts[1..]);
      }
    }
  }

  class GameStateManager {
    var timeRemaining: real
    var currentState: GameState

    function State(): Clock
      reads this
    {
      Clock(timeRemaining, currentState)
    }

    constructor ()
      ensures State() == Initial()
    {
      timeRemaining := GameDurationSeconds as real;
      currentState := Playing;
    }

    function TimeRemainingSeconds(): (n: int)
      reads this
      ensures n == Seconds(State())
    {
      Ceiling(timeRemaining)
    }

    function IsGameWon(): bool
      reads this
    {
      currentState == Won
    }

    function IsGameOver(): bool
      reads this
    {
      currentState == GameOver
    }

    function IsGameActive(): bool
      reads this
    {
      currentState == Playing
    }

    method Update(dt: real)
      modifies this
      ensures State() == TickClock(old(State()), dt)
    {
      if currentState == Playing {
        timeRemaining := timeRemaining - dt;
        if timeRemaining <= 0.0 {
          timeRemaining := 0.0;
          currentState := Won;
        }
      }
    }

    method SetGameOver()
      modifies this
      ensures State() == LoseClock(old(State()))
    {
      if currentState == Playing {
        currentState := GameOver;
      }
    }

    method Reset()
      modifies this
      ensures State() == Initial()
    {
      timeRemaining := GameDurationSeconds as real;
      currentState := Playing;
    }

    method Pause()
      modifies this
      ensures State() == PauseClock(old(State()))
    {
      if currentState == Playing {
        currentState := Paused;
      }
    }

    method Resume()
      modifies this
      ensures State() == ResumeClock(old(State()))
    {
      if currentState == Paused {
        currentState := Playing;
      }
    }
  }
}
