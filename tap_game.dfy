/** The tap-the-shape game: a 15-second countdown driven by a once-a-second timer, a
    score that every tap on the shape raises, and a restart that puts everything back. */
module TapGame {
  import opened Graphics
  import opened Timers

  /** Seconds on the clock when a game starts. */
  const GameLength: nat := 15

  /** Where the shape sits when a game starts. */
  const StartPosition: Point := Point(100, 100)

  /** The range the shape is moved to after a tap: x in 50...300, y in 100...600. */
  predicate OnBoard(p: Point)
  {
    50 <= p.x <= 300 && 100 <= p.y <= 600
  }

  datatype Game = Game(score: int, timeRemaining: int, gameOver: bool, shapePosition: Point)

  /** The state of a new game, and the state a restart produces. */
  const Start: Game := Game(0, GameLength, false, StartPosition)

  /** What every reachable state satisfies: the clock stays within 0..15, the game is only
      over once the clock reads 0, the score is never negative and the shape is on the board. */
  predicate Consistent(g: Game)
  {
    0 <= g.timeRemaining <= GameLength &&
    (g.gameOver ==> g.timeRemaining == 0) &&
    0 <= g.score &&
    OnBoard(g.shapePosition)
  }

  /** The clock is still running. */
  predicate Running(g: Game)
  {
    g.timeRemaining > 0 && !g.gameOver
  }

  /** One timer tick: while time is left and the game is not over the clock goes down by
      one second; otherwise the game is (or stays) over and the clock is left alone. */
  function Tick(g: Game): (r: Game)
    ensures r.score == g.score && r.shapePosition == g.shapePosition
    ensures Running(g) ==> r.timeRemaining == g.timeRemaining - 1 && !r.gameOver
    ensures !Running(g) ==> r.gameOver && r.timeRemaining == g.timeRemaining
    ensures g.timeRemaining >= 0 ==> r.timeRemaining >= 0
    ensures Consistent(g) ==> Consistent(r)
  {
    if g.timeRemaining > 0 && !g.gameOver then
      g.(timeRemaining := g.timeRemaining - 1)
    else
      g.(gameOver := true)
  }

  /** A tap on the shape: one more point, and the shape jumps to `newPosition`. Taps are
      not blocked once the game is over. */
  function Tap(g: Game, newPosition: Point): (r: Game)
    ensures r.score == g.score + 1
    ensures r.timeRemaining == g.timeRemaining && r.gameOver == g.gameOver
    ensures r.shapePosition == newPosition
    ensures Consistent(g) && OnBoard(newPosition) ==> Consistent(r)
  {
    g.(score := g.score + 1, shapePosition := newPosition)
  }

  /** While time is left, each tick takes exactly one second off and nothing else. */
  lemma {:induction false} Countdown(g: Game, n: nat)
    requires !g.gameOver && n <= g.timeRemaining
    ensures Repeat(Tick, g, n) == g.(timeRemaining := g.timeRemaining - n)
    decreases n
  {
    if n > 0 {
      Countdown(Tick(g), n - 1);
    }
  }

  /** Once over, the game stays over: further ticks change nothing. */
  lemma {:induction false} OverIsFinal(g: Game, n: nat)
    requires g.gameOver
    ensures Repeat(Tick, g, n) == g
    decreases n
  {
    if n > 0 {
      assert Tick(g) == g;
      OverIsFinal(g, n - 1);
    }
  }

  /** From a consistent state whose game is not over, the game ends on tick
      `timeRemaining + 1` and on no earlier tick. */
  lemma EndsOnTick(g: Game)
    requires Consistent(g) && !g.gameOver
    ensures forall n: nat :: n <= g.timeRemaining ==> !Repeat(Tick, g, n).gameOver
    ensures Repeat(Tick, g, g.timeRemaining + 1) == g.(timeRemaining := 0, gameOver := true)
  {
    forall n: nat | n <= g.timeRemaining
      ensures !Repeat(Tick, g, n).gameOver
    {
      Countdown(g, n);
    }
    var last := Repeat(Tick, g, g.timeRemaining);
    Countdown(g, g.timeRemaining);
    assert Repeat(Tick, last, 1) == Tick(last);
    RepeatSplit(Tick, g, g.timeRemaining, 1);
  }

  /** From a fresh or restarted game the clock reads 15 - n after n <= 15 ticks, and the
      sixteenth tick is the first to end the game. */
  lemma SixteenthTickEndsGame()
    ensures forall n: nat :: n <= 15 ==> Repeat(Tick, Start, n) == Start.(timeRemaining := 15 - n)
    ensures Repeat(Tick, Start, 16).gameOver && Repeat(Tick, Start, 16).timeRemaining == 0
  {
    forall n: nat | n <= 15
      ensures Repeat(Tick, Start, n) == Start.(timeRemaining := 15 - n)
    {
      Countdown(Start, n);
    }
    EndsOnTick(Start);
  }

  /** Ticks never touch the score: only taps do, one point each. */
  lemma {:induction false} TicksKeepScore(g: Game, n: nat)
    ensures Repeat(Tick, g, n).score == g.score
    ensures Repeat(Tick, g, n).shapePosition == g.shapePosition
    decreases n
  {
    if n > 0 {
      TicksKeepScore(Tick(g), n - 1);
    }
  }

  /** Every reachable state is consistent: ticks and on-board taps keep the invariant. */
  lemma {:induction false} TicksKeepConsistent(g: Game, n: nat)
    requires Consistent(g)
    ensures Consistent(Repeat(Tick, g, n))
    decreases n
  {
    if n > 0 {
      TicksKeepConsistent(Tick(g), n - 1);
    }
  }

  /** The view's game state. */
  class GamePage {
    var score: int
    var timeRemaining: int
    var gameOver: bool
    var shapePosition: Point

    function State(): Game
      reads this
    {
      Game(score, timeRemaining, gameOver, shapePosition)
    }

    ghost predicate Valid()
      reads this
    {
      Consistent(State())
    }

    constructor ()
      ensures Valid() && State() == Start
    {
      score := 0;
      timeRemaining := GameLength;
      gameOver := false;
      shapePosition := StartPosition;
    }

    /** The timer's once-a-second callback. */
    method TimerFired()
      requires Valid()
      modifies this
      ensures Valid()
      ensures State() == Tick(old(State()))
    {
      if timeRemaining > 0 && !gameOver {
        timeRemaining := timeRemaining - 1;
      } else {
        gameOver := true;
      }
    }

    /** A tap on the shape; `newPosition` stands for the random position drawn from the
        board's range. */
    method ShapeTapped(newPosition: Point)
      requires Valid() && OnBoard(newPosition)
      modifies this
      ensures Valid()
      ensures State() == Tap(old(State()), newPosition)
    {
      score := score + 1;
      shapePosition := newPosition;
    }

    /** The Restart button. */
    method RestartGame()
      modifies this
      ensures Valid() && State() == Start
    {
      score := 0;
      timeRemaining := GameLength;
      gameOver := false;
      shapePosition := StartPosition;
    }
  }
}
