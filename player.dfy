/** The player's counters (Player), the game status flags and the
    end-of-game buttons' commands (Button.run_command), and is_between. */
module Session {

  const CoinScore: int := 100
  const PlayerHealthMax: int := 100
  const PlayerHealthSubtract: int := 20
  const PlayerLifeCountStart: int := 3
  const PlayerLifeCountMax: int := 5

  /** The fields of a Player. */
  datatype PlayerState = PlayerState(score: int, round: int, roundCurrent: int, life: int, health: int)

  /** The fields of the game's status dictionary. */
  datatype StatusState = StatusState(run: bool, choiceMade: bool)

  /** Player.round_sync: the current round catches up with the round. */
  function RoundSyncOf(p: PlayerState): (q: PlayerState)
    ensures q.roundCurrent == q.round
    ensures q.(roundCurrent := p.roundCurrent) == p
  {
    p.(roundCurrent := p.round)
  }

  /** Syncing twice is syncing once. */
  lemma RoundSyncIdempotent(p: PlayerState)
    ensures RoundSyncOf(RoundSyncOf(p)) == RoundSyncOf(p)
  {
  }

  /** Button.run_command: what the button reading `text` does to the player
      and the status. Any click records that a choice was made. */
  function RunCommandOf(text: string, p: PlayerState, s: StatusState): (res: (PlayerState, StatusState))
    ensures res.1.choiceMade
    // New Game: everything back to the start, round 1, and the game runs on
    ensures text == "New Game" ==>
      res == (PlayerState(0, 1, 1, PlayerLifeCountStart, PlayerHealthMax), StatusState(true, true))
    // Continue: lives and health refilled, score and round kept
    ensures text == "Continue" ==>
      res == (PlayerState(p.score, p.round, p.round, PlayerLifeCountStart, PlayerHealthMax), StatusState(true, true))
    // Quit: the player is untouched and the game stops
    ensures text == "Quit" ==> res == (p, StatusState(false, true))
    ensures text != "New Game" && text != "Continue" && text != "Quit" ==> res == (p, s.(choiceMade := true))
  {
    var s1 := s.(choiceMade := true);
    if text == "New Game" then
      (RoundSyncOf(p.(score := 0, round := 1, life := PlayerLifeCountStart, health := PlayerHealthMax)), s1.(run := true))
    else if text == "Continue" then
      (RoundSyncOf(p.(life := PlayerLifeCountStart, health := PlayerHealthMax)), s1.(run := true))
    else if text == "Quit" then
      (p, s1.(run := false))
    else
      (p, s1)
  }

  /** is_between(i, (lo, hi)): i lies in the inclusive range, whose
      bounds are not reordered, so an inverted range holds nothing. */
  predicate IsBetween(i: int, lo: int, hi: int) {
    lo <= i <= hi
  }

  class Player {
    var score: int
    var round: int
    var roundCurrent: int
    var life: int
    var health: int

    function State(): PlayerState
      reads this
    {
      PlayerState(score, round, roundCurrent, life, health)
    }

    /** Player.__init__: round 1, three lives, full health. */
    constructor ()
      ensures State() == PlayerState(0, 1, 1, PlayerLifeCountStart, PlayerHealthMax)
    {
      score := 0;
      round := 1;
      roundCurrent := 1;
      life := PlayerLifeCountStart;
      health := PlayerHealthMax;
    }

    /** Player.round_sync. */
    method RoundSync()
      modifies this
      ensures State() == RoundSyncOf(old(State()))
    {
      roundCurrent := round;
    }
  }

  /** The game's status dictionary. */
  class Status {
    var run: bool
    var choiceMade: bool

    function State(): StatusState
      reads this
    {
      StatusState(run, choiceMade)
    }

    constructor ()
      ensures State() == StatusState(true, false)
    {
      run := true;
      choiceMade := false;
    }
  }

  /** An end-of-game button; only its text matters to its command. */
  class Button {
    const text: string

    constructor (text: string)
      ensures this.text == text
    {
      this.text := text;
    }

    /** Button.run_command. */
    method RunCommand(player: Player, status: Status)
      modifies player, status
      ensures (player.State(), status.State()) == RunCommandOf(text, old(player.State()), old(status.State()))
    {
      status.choiceMade := true;
      if text == "New Game" {
        player.score := 0;
        player.round := 1;
        player.life := PlayerLifeCountStart;
        player.health := PlayerHealthMax;
        player.RoundSync();
        status.run := true;
      } else if text == "Continue" {
        status.run := true;
        player.life := PlayerLifeCountStart;
        player.health := PlayerHealthMax;
        player.RoundSync();
      } else if text == "Quit" {
        status.run := false;
      }
    }
  }
}
