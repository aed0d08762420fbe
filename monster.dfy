/** The Monster: its per-tick move (Monster.move), which proposes a change
    by charging or by following the current straight leg, re-plans a knight
    move when the change is blocked, and otherwise advances the legs. */
module MonsterMove {
  import opened Geometry
  import opened Moving
  import opened Navigation
  import opened Knight

  /** The monster's maneuver: "charge" or "straight". */
  datatype Maneuver = ChargeManeuver | StraightManeuver

  /** The fields of a Monster (position, size, velocity, maneuver) and of
      its Straight object. Positions are whole pixels: they start on the
      grid and change by velocity * -1, 0 or 1, so int(finex) == finex. */
  datatype MonsterState = MonsterState(
    x: int, y: int,
    width: nat, height: nat,
    velocity: int,
    maneuver: Maneuver,
    st: StraightState)

  /** The random draws one call of Monster.move may make: randrange(4) in
      best_direction's fallback and the draws of random_turn. */
  datatype MoveDraws = MoveDraws(fallback: nat, turn: TurnDraw)

  predicate ValidDraws(d: MoveDraws) {
    d.fallback < 4 && ValidTurnDraw(d.turn)
  }

  predicate WellFormed(m: MonsterState) {
    m.width > 0 && m.velocity >= 1
  }

  function RectOf(m: MonsterState): Rect {
    Rect(m.x, m.y, m.width, m.height)
  }

  /** The first part of Monster.move: the proposed change (zero while the
      monsters are held back) and the Straight fields after proposing it. */
  function Proposal(m: MonsterState, tx: int, ty: int, go: bool): (res: ((int, int), StraightState))
    requires WellFormed(m)
    ensures !go ==> res == ((0, 0), m.st)
    ensures go && m.maneuver == ChargeManeuver ==> res == (Charge(m.x, m.y, tx, ty, m.velocity), m.st)
    ensures go && m.maneuver == StraightManeuver ==> res == StraightTick(m.st, m.velocity)
  {
    if go && m.maneuver == ChargeManeuver then (Charge(m.x, m.y, tx, ty, m.velocity), m.st)
    else if go && m.maneuver == StraightManeuver then StraightTick(m.st, m.velocity)
    else ((0, 0), m.st)
  }

  /** The bookkeeping of an unblocked tick: a completed first leg turns
      into the second, a completed second leg returns to charging, and an
      unfinished leg counts the velocity as paces gone. */
  function AdvanceLegs(man: Maneuver, st: StraightState, velocity: int, turn: TurnDraw): (res: (Maneuver, StraightState))
    requires ValidTurnDraw(turn)
  {
    if man == StraightManeuver then
      if st.completed then
        if st.stage == First then (StraightManeuver, KnightMovesOf(st, Next(turn)).1)
        else if st.stage == Second then (ChargeManeuver, KnightMovesOf(st, Finish).1)
        else (man, st)
      else (man, st.(moveCount := st.moveCount + velocity as real))
    else (man, st)
  }

  /** Monster.move as a function of the monster's state, the robot's
      position (tx, ty), the doors, the window and the monsters_are_go gate. */
  function MoveStep(m: MonsterState, tx: int, ty: int, doors: seq<Rect>, window: Rect,
                    go: bool, draws: MoveDraws): (m': MonsterState)
    requires WellFormed(m) && ValidDraws(draws)
    ensures m'.width == m.width && m'.height == m.height && m'.velocity == m.velocity
  {
    var (change, st1) := Proposal(m, tx, ty, go);
    if Blocked(RectOf(m), change.0, change.1, doors, window) then
      var (best, clear) := BestDirectionOf(RectOf(m), doors, window, draws.fallback);
      m.(maneuver := StraightManeuver, st := KnightMovesOf(st1, Start(best)).1)
    else
      var (man, st2) := AdvanceLegs(m.maneuver, st1, m.velocity, draws.turn);
      m.(x := m.x + change.0, y := m.y + change.1, maneuver := man, st := st2)
  }

  /** A blocked proposal restarts the knight move: the monster stays put,
      goes straight in the best direction for half its distance, at the
      first stage, with the leg counters reset. */
  lemma BlockedRestartsKnightMove(m: MonsterState, tx: int, ty: int, doors: seq<Rect>, window: Rect,
                                  go: bool, draws: MoveDraws)
    requires WellFormed(m) && ValidDraws(draws)
    requires var c := Proposal(m, tx, ty, go).0; Blocked(RectOf(m), c.0, c.1, doors, window)
    ensures var m' := MoveStep(m, tx, ty, doors, window, go, draws);
      var best := BestDirectionOf(RectOf(m), doors, window, draws.fallback).0;
      && m'.x == m.x && m'.y == m.y
      && m'.maneuver == StraightManeuver && m'.st.stage == First
      && m'.st.direction == best.dir && m'.st.paces == best.dist / 2.0
      && m'.st.moveCount == 0.0 && !m'.st.completed
      && m'.st.direction in Paths
      && m'.st.paces >= m.width as real / 2.0
  {
  }

  /** When the first leg is over (and the proposal is not blocked) the
      monster turns: stage second, a direction that is zero where the old
      one moved and one step either way where it did not, and 100 to 250
      paces to go. */
  lemma FirstLegTurns(m: MonsterState, tx: int, ty: int, doors: seq<Rect>, window: Rect,
                      go: bool, draws: MoveDraws)
    requires WellFormed(m) && ValidDraws(draws)
    requires m.maneuver == StraightManeuver
    requires var (c, st1) := Proposal(m, tx, ty, go);
      !Blocked(RectOf(m), c.0, c.1, doors, window) && st1.completed && st1.stage == First
    ensures var m' := MoveStep(m, tx, ty, doors, window, go, draws);
      && m'.maneuver == StraightManeuver && m'.st.stage == Second
      && (m.st.direction.0 != 0 ==> m'.st.direction.0 == 0)
      && (m.st.direction.0 == 0 ==> m'.st.direction.0 == -1 || m'.st.direction.0 == 1)
      && (m.st.direction.1 != 0 ==> m'.st.direction.1 == 0)
      && (m.st.direction.1 == 0 ==> m'.st.direction.1 == -1 || m'.st.direction.1 == 1)
      && TurnPacesMin as real <= m'.st.paces <= TurnPacesMax as real
      && m'.st.moveCount == 0.0 && !m'.st.completed
  {
    var (c, st1) := Proposal(m, tx, ty, go);
    assert st1.direction == m.st.direction;
  }

  /** When the second leg is over the knight move is finished and the
      monster charges again, without checking that the way is clear. */
  lemma SecondLegCharges(m: MonsterState, tx: int, ty: int, doors: seq<Rect>, window: Rect,
                         go: bool, draws: MoveDraws)
    requires WellFormed(m) && ValidDraws(draws)
    requires m.maneuver == StraightManeuver
    requires var (c, st1) := Proposal(m, tx, ty, go);
      !Blocked(RectOf(m), c.0, c.1, doors, window) && st1.completed && st1.stage == Second
    ensures var m' := MoveStep(m, tx, ty, doors, window, go, draws);
      m'.maneuver == ChargeManeuver && m'.st.stage == NoStage
  {
  }

  /** An unfinished leg counts the velocity as paces gone — also while the
      monsters are held back and do not actually move. */
  lemma UnfinishedLegCounts(m: MonsterState, tx: int, ty: int, doors: seq<Rect>, window: Rect,
                            go: bool, draws: MoveDraws)
    requires WellFormed(m) && ValidDraws(draws)
    requires m.maneuver == StraightManeuver
    requires var (c, st1) := Proposal(m, tx, ty, go);
      !Blocked(RectOf(m), c.0, c.1, doors, window) && !st1.completed
    ensures var m' := MoveStep(m, tx, ty, doors, window, go, draws);
      && m'.maneuver == StraightManeuver
      && m'.st.moveCount == Proposal(m, tx, ty, go).1.moveCount + m.velocity as real
      && m'.st.stage == m.st.stage && m'.st.direction == m.st.direction
  {
  }

  /** While monsters_are_go is false the monster never moves. A charging
      monster that is not blocked where it stands stays exactly as it is. */
  lemma HeldBackNeverMoves(m: MonsterState, tx: int, ty: int, doors: seq<Rect>, window: Rect,
                           draws: MoveDraws)
    requires WellFormed(m) && ValidDraws(draws)
    ensures var m' := MoveStep(m, tx, ty, doors, window, false, draws);
      && m'.x == m.x && m'.y == m.y
      && (m.maneuver == ChargeManeuver && !Blocked(RectOf(m), 0, 0, doors, window) ==> m' == m)
  {
  }

  /** An unblocked charging monster moves by the pursuit vector. */
  lemma ChargingMovesByCharge(m: MonsterState, tx: int, ty: int, doors: seq<Rect>, window: Rect,
                              draws: MoveDraws)
    requires WellFormed(m) && ValidDraws(draws) && m.maneuver == ChargeManeuver
    requires var c := Charge(m.x, m.y, tx, ty, m.velocity); !Blocked(RectOf(m), c.0, c.1, doors, window)
    ensures var m' := MoveStep(m, tx, ty, doors, window, true, draws);
      var c := Charge(m.x, m.y, tx, ty, m.velocity);
      m'.x == m.x + c.0 && m'.y == m.y + c.1 && m'.maneuver == ChargeManeuver && m'.st == m.st
  {
  }

  /** The invariant of the navigation state: a monster charges exactly
      when no knight move is under way, its direction is a unit direction
      and its leg counters are not negative. */
  predicate NavigationInvariant(m: MonsterState) {
    && (m.maneuver == ChargeManeuver <==> m.st.stage == NoStage)
    && UnitDirection(m.st.direction)
    && m.st.paces >= 0.0 && m.st.moveCount >= 0.0
  }

  lemma MoveStepKeepsInvariant(m: MonsterState, tx: int, ty: int, doors: seq<Rect>, window: Rect,
                               go: bool, draws: MoveDraws)
    requires WellFormed(m) && ValidDraws(draws) && NavigationInvariant(m)
    ensures NavigationInvariant(MoveStep(m, tx, ty, doors, window, go, draws))
  {
    var (change, st1) := Proposal(m, tx, ty, go);
    if Blocked(RectOf(m), change.0, change.1, doors, window) {
      var best := BestDirectionOf(RectOf(m), doors, window, draws.fallback).0;
      KnightMovesKeepUnitDirection(st1, Start(best), m.velocity);
    } else if m.maneuver == StraightManeuver && st1.completed && st1.stage == First {
      KnightMovesKeepUnitDirection(st1, Next(draws.turn), m.velocity);
    }
  }

  /** A monster that starts inside the window stays inside it, and when it
      does move it lands clear of every door. */
  lemma MoveStepStaysOnBoard(m: MonsterState, tx: int, ty: int, doors: seq<Rect>, window: Rect,
                             go: bool, draws: MoveDraws)
    requires WellFormed(m) && ValidDraws(draws)
    requires Contains(window, RectOf(m))
    ensures var m' := MoveStep(m, tx, ty, doors, window, go, draws);
      && Contains(window, RectOf(m'))
      && ((m'.x, m'.y) != (m.x, m.y) ==> !HitsDoor(RectOf(m'), doors))
  {
    var (change, st1) := Proposal(m, tx, ty, go);
    if !Blocked(RectOf(m), change.0, change.1, doors, window) {
      assert RectOf(MoveStep(m, tx, ty, doors, window, go, draws)) == MoveRect(RectOf(m), change.0, change.1);
    }
  }

  /** A Monster object and its nested Straight object. */
  class Monster {
    var finex: int
    var finey: int
    const width: nat
    const height: nat
    const velocity: int
    var maneuver: Maneuver
    const straight: Straight

    /** The object invariant: the constructor's requirements, the shared
        velocity, and the navigation invariant that a tick keeps. */
    ghost predicate Valid()
      reads this, straight
    {
      width > 0 && velocity >= 1 && straight.velocity == velocity && NavigationInvariant(State())
    }

    function State(): MonsterState
      reads this, straight
    {
      MonsterState(finex, finey, width, height, velocity, maneuver, straight.State())
    }

    function Bounds(): Rect
      reads this
    {
      Rect(finex, finey, width, height)
    }

    /** Monster.__init__: charging, with a Straight object at rest. The
        velocity check of Moving.__init__ is made by NewMonster. */
    constructor (finex: int, finey: int, width: nat, height: nat, velocity: int)
      requires width > 0 && velocity >= 1
      ensures Valid() && fresh(straight)
      ensures State() == MonsterState(finex, finey, width, height, velocity, ChargeManeuver,
                                      StraightState((0, 0), 0.0, 0.0, false, NoStage))
    {
      this.finex := finex;
      this.finey := finey;
      this.width := width;
      this.height := height;
      this.velocity := velocity;
      maneuver := ChargeManeuver;
      straight := new Straight(velocity);
    }

    /** The proposal part of Monster.move: charge, or follow the straight
        leg, while the monsters are released. */
    method Propose(tx: int, ty: int, go: bool) returns (change: (int, int))
      requires Valid()
      modifies straight
      ensures Valid()
      ensures (change, straight.State()) == Proposal(old(State()), tx, ty, go)
    {
      change := (0, 0);
      if go {
        if maneuver == ChargeManeuver {
          change := Charge(finex, finey, tx, ty, velocity);
        } else if maneuver == StraightManeuver {
          change := straight.Step();
        }
      }
    }

    /** The blocked branch of Monster.move: a new knight move from here. */
    method Replan(doors: seq<Rect>, window: Rect, fallback: nat)
      requires Valid() && fallback < 4
      modifies this`maneuver, straight
      ensures Valid()
      ensures maneuver == StraightManeuver
      ensures straight.State() ==
        KnightMovesOf(old(straight.State()), Start(BestDirectionOf(Bounds(), doors, window, fallback).0)).1
    {
      ghost var st0 := straight.State();
      var r := Bounds();
      var best, clear := BestDirection(r, doors, window, fallback);
      KnightMovesKeepUnitDirection(st0, Start(best), velocity);
      var _ := straight.KnightMoves(Start(best));
      ghost var st1 := straight.State();
      assert st1 == KnightMovesOf(st0, Start(best)).1;
      maneuver := StraightManeuver;
      assert r == Bounds();
    }

    /** The unblocked branch of Monster.move: advance the knight move. */
    method Advance(turn: TurnDraw)
      requires Valid() && ValidTurnDraw(turn)
      modifies this`maneuver, straight
      ensures Valid()
      ensures (maneuver, straight.State()) == AdvanceLegs(old(maneuver), old(straight.State()), velocity, turn)
    {
      if maneuver == StraightManeuver {
        if straight.completed {
          var stage := straight.KnightMoves(Query);
          if stage == First {
            KnightMovesKeepUnitDirection(straight.State(), Next(turn), velocity);
            stage := straight.KnightMoves(Next(turn));
          } else {
            stage := straight.KnightMoves(Query);
            if stage == Second {
              stage := straight.KnightMoves(Finish);
              maneuver := ChargeManeuver;
            }
          }
        } else {
          straight.moveCount := straight.moveCount + velocity as real;
        }
      }
    }

    /** Monster.move: one tick of the monster towards the robot at (tx, ty). */
    method Move(tx: int, ty: int, doors: seq<Rect>, window: Rect, go: bool, draws: MoveDraws)
      requires Valid() && ValidDraws(draws)
      modifies this, straight
      ensures Valid()
      ensures State() == MoveStep(old(State()), tx, ty, doors, window, go, draws)
    {
      ghost var s0 := State();
      var change := Propose(tx, ty, go);
      ghost var st1 := straight.State();
      assert Bounds() == RectOf(s0);
      var collision := IsCollision(Bounds(), doors, change.0, change.1, window);
      if collision {
        Replan(doors, window, draws.fallback);
        ghost var best := BestDirectionOf(RectOf(s0), doors, window, draws.fallback).0;
        assert straight.State() == KnightMovesOf(st1, Start(best)).1;
        assert State() == s0.(maneuver := StraightManeuver, st := KnightMovesOf(st1, Start(best)).1);
      } else {
        Advance(draws.turn);
        ghost var adv := AdvanceLegs(s0.maneuver, st1, velocity, draws.turn);
        assert (maneuver, straight.State()) == adv;
        finex := finex + change.0;
        finey := finey + change.1;
        assert State() == s0.(x := s0.x + change.0, y := s0.y + change.1, maneuver := adv.0, st := adv.1);
      }
    }
  }

  /** Monster(...) as the game builds one: Moving.__init__ raises
      ValueError for a velocity below one, modelled as None. */
  method NewMonster(finex: int, finey: int, width: nat, height: nat, velocity: int)
    returns (m: Option<Monster>)
    requires width > 0
    ensures m.None? <==> velocity < 1
    ensures m.Some? ==> fresh(m.value) && m.value.Valid()
    ensures m.Some? ==> m.value.State() == MonsterState(finex, finey, width, height, velocity,
      ChargeManeuver, StraightState((0, 0), 0.0, 0.0, false, NoStage))
  {
    if velocity < 1 {
      return None;
    }
    var monster := new Monster(finex, finey, width, height, velocity);
    m := Some(monster);
  }

}
