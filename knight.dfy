/** The monster's Straight maneuver object (Monster.Straight): a straight
    leg in a stored direction for a number of paces, and the two-leg
    "knight move" (an L-shaped detour) built from such legs. */
module Knight {
  import opened Navigation

  /** knight_moves_stage: "none", "first" or "second". */
  datatype Stage = NoStage | First | Second

  /** The paces of the second leg are drawn from this inclusive range. */
  const TurnPacesMin: int := 100
  const TurnPacesMax: int := 250

  /** The fields of a Straight object. */
  datatype StraightState = StraightState(
    direction: (int, int),
    paces: real,
    moveCount: real,
    completed: bool,
    stage: Stage)

  /** The random draws random_turn makes: randrange(2) for each axis that
      is currently zero (index into [-1.0, 1.0]) and randint(100, 250). */
  datatype TurnDraw = TurnDraw(x: nat, y: nat, paces: int)

  predicate ValidTurnDraw(t: TurnDraw) {
    t.x < 2 && t.y < 2 && TurnPacesMin <= t.paces <= TurnPacesMax
  }

  /** A direction whose components are each -1, 0 or 1. */
  predicate UnitDirection(d: (int, int)) {
    -1 <= d.0 <= 1 && -1 <= d.1 <= 1
  }

  function Pick(i: nat): int { if i == 0 then -1 else 1 }

  /** Straight.random_turn: a turn off the current direction and the
      number of paces to go after it. */
  function RandomTurn(direction: (int, int), t: TurnDraw): (turn: ((int, int), real))
    requires ValidTurnDraw(t)
    // zero where the old direction moved, one step either way where it did not
    ensures direction.0 != 0 ==> turn.0.0 == 0
    ensures direction.0 == 0 ==> turn.0.0 == -1 || turn.0.0 == 1
    ensures direction.1 != 0 ==> turn.0.1 == 0
    ensures direction.1 == 0 ==> turn.0.1 == -1 || turn.0.1 == 1
    ensures TurnPacesMin as real <= turn.1 <= TurnPacesMax as real
  {
    var x := if direction.0 == 0 then Pick(t.x) else 0;
    var y := if direction.1 == 0 then Pick(t.y) else 0;
    ((x, y), t.paces as real)
  }

  /** A turn is always perpendicular to the old direction, and for one of
      the four cardinal directions it is again a cardinal direction. */
  lemma RandomTurnPerpendicular(direction: (int, int), t: TurnDraw)
    requires ValidTurnDraw(t)
    ensures var d := RandomTurn(direction, t).0;
      && d.0 * direction.0 + d.1 * direction.1 == 0
      && UnitDirection(d)
      && (direction in Paths ==> d in Paths)
  {
    var d := RandomTurn(direction, t).0;
    if direction in Paths {
      assert direction == Paths[0] || direction == Paths[1] || direction == Paths[2] || direction == Paths[3];
    }
  }

  /** A stopped monster (direction [0, 0]) turns onto a diagonal. */
  lemma RandomTurnFromRestIsDiagonal(t: TurnDraw)
    requires ValidTurnDraw(t)
    ensures var d := RandomTurn((0, 0), t).0; d.0 != 0 && d.1 != 0
  {
  }

  /** Straight.straight: when the leg has run its paces (and paces is not
      zero) the leg is over — no movement, completed, counters reset;
      otherwise the change is velocity times the direction and nothing
      changes. */
  function StraightTick(s: StraightState, velocity: int): (res: ((int, int), StraightState))
    ensures s.moveCount >= s.paces && s.paces != 0.0 ==>
      res.0 == (0, 0) &&
      res.1 == s.(moveCount := 0.0, paces := 0.0, completed := true)
    ensures !(s.moveCount >= s.paces && s.paces != 0.0) ==>
      res.0 == (velocity * s.direction.0, velocity * s.direction.1) && res.1 == s
  {
    if s.moveCount >= s.paces && s.paces != 0.0 then
      ((0, 0), s.(moveCount := 0.0, paces := 0.0, completed := true))
    else
      ((velocity * s.direction.0, velocity * s.direction.1), s)
  }

  /** The argument of knight_moves: "start" with the best direction,
      "next" (with the draws of its random_turn), "finish", or none. */
  datatype Command = Start(best: PathResult) | Next(turn: TurnDraw) | Finish | Query

  predicate ValidCommand(cmd: Command) {
    cmd.Next? ==> ValidTurnDraw(cmd.turn)
  }

  /** Straight.knight_moves: the new stage (also returned) and fields. */
  function KnightMovesOf(s: StraightState, cmd: Command): (res: (Stage, StraightState))
    requires ValidCommand(cmd)
    ensures res.0 == res.1.stage
    // start: first leg along the best direction for half its distance
    ensures cmd.Start? ==>
      res.1 == StraightState(cmd.best.dir, cmd.best.dist / 2.0, 0.0, false, First)
    // next: second leg after a random turn
    ensures cmd.Next? ==>
      && res.1.stage == Second && res.1.moveCount == 0.0 && !res.1.completed
      && (res.1.direction, res.1.paces) == RandomTurn(s.direction, cmd.turn)
    // finish: only the stage changes
    ensures cmd.Finish? ==> res.1 == s.(stage := NoStage)
    ensures cmd.Query? ==> res.1 == s
  {
    match cmd
    case Start(best) =>
      (First, StraightState(best.dir, best.dist / 2.0, 0.0, false, First))
    case Next(turn) =>
      var (dir, paces) := RandomTurn(s.direction, turn);
      (Second, s.(stage := Second, direction := dir, paces := paces, moveCount := 0.0, completed := false))
    case Finish =>
      (NoStage, s.(stage := NoStage))
    case Query =>
      (s.stage, s)
  }

  /** Every Straight operation keeps the direction a unit direction, as
      long as the best direction it is handed is one. */
  lemma KnightMovesKeepUnitDirection(s: StraightState, cmd: Command, velocity: int)
    requires ValidCommand(cmd) && UnitDirection(s.direction)
    requires cmd.Start? ==> cmd.best.dir in Paths
    ensures UnitDirection(KnightMovesOf(s, cmd).1.direction)
    ensures UnitDirection(StraightTick(s, velocity).1.direction)
  {
    match cmd
    case Start(best) =>
      assert best.dir == Paths[0] || best.dir == Paths[1] || best.dir == Paths[2] || best.dir == Paths[3];
    case Next(turn) =>
      RandomTurnPerpendicular(s.direction, turn);
    case Finish =>
    case Query =>
  }

  /** The nested Straight object of a monster. `velocity` is the owning
      monster's velocity, which never changes. */
  class Straight {
    var direction: (int, int)
    var paces: real
    var moveCount: real
    var completed: bool
    var stage: Stage
    const velocity: int

    function State(): StraightState
      reads this
    {
      StraightState(direction, paces, moveCount, completed, stage)
    }

    /** Straight.__init__: at rest, no leg, stage none. */
    constructor (velocity: int)
      ensures this.velocity == velocity
      ensures State() == StraightState((0, 0), 0.0, 0.0, false, NoStage)
    {
      direction := (0, 0);
      paces := 0.0;
      moveCount := 0.0;
      completed := false;
      stage := NoStage;
      this.velocity := velocity;
    }

    /** Straight.straight. */
    method Step() returns (change: (int, int))
      modifies this
      ensures (change, State()) == StraightTick(old(State()), velocity)
    {
      change := (0, 0);
      if moveCount >= paces && paces != 0.0 {
        moveCount := 0.0;
        paces := 0.0;
        completed := true;
        change := (0, 0);
      } else {
        change := (velocity * direction.0, velocity * direction.1);
      }
    }

    /** Straight.random_turn, which reads the direction and changes nothing. */
    method RandomTurnOf(t: TurnDraw) returns (dir: (int, int), newPaces: real)
      requires ValidTurnDraw(t)
      ensures (dir, newPaces) == RandomTurn(direction, t)
    {
      var x := 0;
      if direction.0 == 0 {
        x := Pick(t.x);
      }
      var y := 0;
      if direction.1 == 0 {
        y := Pick(t.y);
      }
      dir := (x, y);
      newPaces := t.paces as real;
    }

    /** Straight.knight_moves. */
    method KnightMoves(cmd: Command) returns (newStage: Stage)
      requires ValidCommand(cmd)
      modifies this
      ensures (newStage, State()) == KnightMovesOf(old(State()), cmd)
    {
      match cmd {
        case Start(best) =>
          stage := First;
          direction := best.dir;
          paces := best.dist / 2.0;
          moveCount := 0.0;
          completed := false;
        case Next(turn) =>
          stage := Second;
          direction, paces := RandomTurnOf(turn);
          moveCount := 0.0;
          completed := false;
        case Finish =>
          stage := NoStage;
        case Query =>
      }
      newStage := stage;
    }
  }
}
