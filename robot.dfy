/** The Robot (the player's sprite): key-driven movement (Robot.move) and
    the pickup and damage checks (found_coin, monster_mash), which remove
    items from the list they are iterating over. */
module RobotMove {
  import opened Geometry
  import opened Moving
  import opened Session
  import MonsterMove

  // ---------------------------------------------------------------------
  // Removing while iterating

  /** What is left of s[o..] after `for item in items: if hit:
      items.remove(item)`, where hit[j] says whether s[j] overlaps. The
      list iterator walks an index, so the element right after each
      removed one is never examined and stays. */
  function KeptFrom<T>(s: seq<T>, hit: seq<bool>, o: nat): (k: seq<T>)
    requires |hit| == |s| && o <= |s|
    ensures |k| <= |s| - o
    decreases |s| - o
  {
    if o == |s| then []
    else if hit[o] then (if o + 1 == |s| then [] else [s[o + 1]] + KeptFrom(s, hit, o + 2))
    else [s[o]] + KeptFrom(s, hit, o + 1)
  }

  /** How many items of s[o..] that loop removes. */
  function RemovedFrom(hit: seq<bool>, o: nat): (n: nat)
    requires o <= |hit|
    ensures n <= |hit| - o
    decreases |hit| - o
  {
    if o == |hit| then 0
    else if hit[o] then 1 + (if o + 1 == |hit| then 0 else RemovedFrom(hit, o + 2))
    else RemovedFrom(hit, o + 1)
  }

  function Kept<T>(s: seq<T>, hit: seq<bool>): seq<T>
    requires |hit| == |s|
  {
    KeptFrom(s, hit, 0)
  }

  function Removed(hit: seq<bool>): nat {
    RemovedFrom(hit, 0)
  }

  /** Every item is either kept or removed, never both. */
  lemma {:induction false} KeptPlusRemoved<T>(s: seq<T>, hit: seq<bool>, o: nat)
    requires |hit| == |s| && o <= |s|
    ensures |KeptFrom(s, hit, o)| + RemovedFrom(hit, o) == |s| - o
    decreases |s| - o
  {
    if o < |s| {
      if !hit[o] {
        KeptPlusRemoved(s, hit, o + 1);
      } else if o + 1 < |s| {
        KeptPlusRemoved(s, hit, o + 2);
      }
    }
  }

  /** When nothing overlaps, nothing is removed. */
  lemma {:induction false} NoHitKeepsAll<T>(s: seq<T>, hit: seq<bool>, o: nat)
    requires |hit| == |s| && o <= |s|
    requires forall j :: o <= j < |hit| ==> !hit[j]
    ensures KeptFrom(s, hit, o) == s[o..] && RemovedFrom(hit, o) == 0
    decreases |s| - o
  {
    if o < |s| {
      NoHitKeepsAll(s, hit, o + 1);
      assert s[o..] == [s[o]] + s[o + 1..];
    }
  }

  /** The loop empties a non-empty list only when it holds a single
      overlapping item: with two or more, the one after the first removal
      is skipped and stays. */
  lemma EmptiedOnlyFromSingleHit<T>(s: seq<T>, hit: seq<bool>)
    requires |hit| == |s| && |s| > 0
    ensures Kept(s, hit) == [] <==> (|s| == 1 && hit[0])
  {
  }

  /** An item that does not overlap is never removed: it is either
      examined and kept or skipped, and so stays. */
  lemma {:induction false} NonHitKept<T>(s: seq<T>, hit: seq<bool>, o: nat, j: nat)
    requires |hit| == |s| && o <= j < |s| && !hit[j]
    ensures s[j] in KeptFrom(s, hit, o)
    decreases |s| - o
  {
    if o < j {
      if hit[o] {
        if o + 1 != j {
          NonHitKept(s, hit, o + 2, j);
        }
      } else {
        NonHitKept(s, hit, o + 1, j);
      }
    }
  }

  /** Two overlapping items side by side: only the first is removed. */
  lemma AdjacentHitsSkipSecond<T>(a: T, b: T)
    ensures Kept([a, b], [true, true]) == [b] && Removed([true, true]) == 1
  {
  }

  /** The loop invariant of found_coin and monster_mash, for the ghost
      cursor o into the original list s and the part already passed. */
  ghost predicate SweepInvariant<T>(s: seq<T>, hit: seq<bool>, items: seq<T>, prefix: seq<T>, o: nat, i: int, removed: nat)
    requires |hit| == |s|
  {
    && o <= |s|
    && items == prefix + s[o..]
    && (i == |prefix| || (i == |prefix| + 1 && o == |s|))
    && Kept(s, hit) == prefix + KeptFrom(s, hit, o)
    && Removed(hit) == removed + RemovedFrom(hit, o)
  }

  /** One pass of the loop body that removes items[i] = s[o]. */
  lemma SweepRemoveStep<T>(s: seq<T>, hit: seq<bool>, items: seq<T>, prefix: seq<T>, o: nat, i: int, removed: nat)
    requires |hit| == |s| && SweepInvariant(s, hit, items, prefix, o, i, removed)
    requires i < |items| && hit[o]
    ensures i == |prefix| && items[i] == s[o]
    ensures o + 1 < |s| ==> SweepInvariant(s, hit, items[..i] + items[i + 1..], prefix + [s[o + 1]], o + 2, i + 1, removed + 1)
    ensures o + 1 == |s| ==> SweepInvariant(s, hit, items[..i] + items[i + 1..], prefix, |s|, i + 1, removed + 1)
  {
    assert items[..i] == prefix && items[i + 1..] == s[o + 1..];
    if o + 1 < |s| {
      assert s[o + 1..] == [s[o + 1]] + s[o + 2..];
      assert prefix + ([s[o + 1]] + KeptFrom(s, hit, o + 2)) == (prefix + [s[o + 1]]) + KeptFrom(s, hit, o + 2);
    }
  }

  /** One pass of the loop body that keeps items[i] = s[o]. */
  lemma SweepKeepStep<T>(s: seq<T>, hit: seq<bool>, items: seq<T>, prefix: seq<T>, o: nat, i: int, removed: nat)
    requires |hit| == |s| && SweepInvariant(s, hit, items, prefix, o, i, removed)
    requires i < |items| && !hit[o]
    ensures i == |prefix| && items[i] == s[o]
    ensures SweepInvariant(s, hit, items, prefix + [s[o]], o + 1, i + 1, removed)
  {
    assert s[o..] == [s[o]] + s[o + 1..];
    assert prefix + ([s[o]] + KeptFrom(s, hit, o + 1)) == (prefix + [s[o]]) + KeptFrom(s, hit, o + 1);
  }

  /** When the loop stops, the list is what Kept says. */
  lemma SweepDone<T>(s: seq<T>, hit: seq<bool>, items: seq<T>, prefix: seq<T>, o: nat, i: int, removed: nat)
    requires |hit| == |s| && SweepInvariant(s, hit, items, prefix, o, i, removed)
    requires i >= |items|
    ensures items == Kept(s, hit) && removed == Removed(hit)
  {
    assert s[o..] == [];
  }

  // ---------------------------------------------------------------------
  // Bookkeeping

  /** One coin collected: 100 points, and when it was the last coin, one
      more life (at most five) and the next round. */
  function CoinTaken(p: PlayerState, last: bool): (q: PlayerState)
    ensures q.score == p.score + CoinScore
    ensures q.health == p.health && q.roundCurrent == p.roundCurrent
    ensures last ==> q.life == Min(p.life + 1, PlayerLifeCountMax) && q.round == p.round + 1
    ensures !last ==> q.life == p.life && q.round == p.round
  {
    if last then p.(score := p.score + CoinScore, life := Min(p.life + 1, PlayerLifeCountMax), round := p.round + 1)
    else p.(score := p.score + CoinScore)
  }

  /** The player after n coins, the list emptied or not, in closed form. */
  function Collected(p: PlayerState, n: nat, emptied: bool): (q: PlayerState)
    ensures q.score == p.score + CoinScore * n
    ensures q.health == p.health && q.roundCurrent == p.roundCurrent
    ensures q.life == if emptied then Min(p.life + 1, PlayerLifeCountMax) else p.life
    ensures q.round == if emptied then p.round + 1 else p.round
  {
    p.(score := p.score + CoinScore * n,
       life := if emptied then Min(p.life + 1, PlayerLifeCountMax) else p.life,
       round := if emptied then p.round + 1 else p.round)
  }

  /** The closed form agrees with collecting one coin at a time; only the
      last coin can empty the list. */
  lemma CollectedStep(p: PlayerState, n: nat, last: bool)
    ensures Collected(p, n + 1, last) == CoinTaken(Collected(p, n, false), last)
  {
  }

  /** found_coin's effect on the player: 100 points per coin removed; when
      the removal empties the list, one more life (at most five) and the
      next round. */
  function AfterCoins<T>(p: PlayerState, coins: seq<T>, hit: seq<bool>): (q: PlayerState)
    requires |hit| == |coins|
    ensures q.score == p.score + CoinScore * Removed(hit)
    ensures q.health == p.health && q.roundCurrent == p.roundCurrent
    ensures |coins| > 0 && Kept(coins, hit) == [] ==>
      q.round == p.round + 1 && q.life == Min(p.life + 1, PlayerLifeCountMax) && q.life <= PlayerLifeCountMax
    ensures !(|coins| > 0 && Kept(coins, hit) == []) ==> q.round == p.round && q.life == p.life
  {
    Collected(p, Removed(hit), |coins| > 0 && Kept(coins, hit) == [])
  }

  /** The body of found_coin's hit branch, applied to the player. */
  method TakeCoin(player: Player, last: bool)
    modifies player
    ensures player.State() == CoinTaken(old(player.State()), last)
  {
    player.score := player.score + CoinScore;
    if last {
      player.life := Min(player.life + 1, PlayerLifeCountMax);
      player.round := player.round + 1;
    }
  }

  /** Whether one of n successive 20-point hits on `health` lands on
      exactly zero: only then is a life lost. */
  predicate HitsZero(health: int, n: nat) {
    n > 0 && (health - PlayerHealthSubtract * n == 0 || HitsZero(health, n - 1))
  }

  /** One monster hit: 20 health off, and when that lands on exactly
      zero, a life lost and the next round. */
  function MonsterHit(p: PlayerState): (q: PlayerState)
    ensures q.health == p.health - PlayerHealthSubtract
    ensures q.score == p.score && q.roundCurrent == p.roundCurrent
    ensures q.health == 0 ==> q.life == p.life - 1 && q.round == p.round + 1
    ensures q.health != 0 ==> q.life == p.life && q.round == p.round
  {
    var h := p.health - PlayerHealthSubtract;
    if h == 0 then p.(health := h, life := p.life - 1, round := p.round + 1)
    else p.(health := h)
  }

  /** The player after n monster hits, in closed form. */
  function Damaged(p: PlayerState, n: nat): (q: PlayerState)
    ensures q.health == p.health - PlayerHealthSubtract * n
    ensures q.score == p.score && q.roundCurrent == p.roundCurrent
    ensures q.life == p.life - (if HitsZero(p.health, n) then 1 else 0)
    ensures q.round == p.round + (if HitsZero(p.health, n) then 1 else 0)
  {
    var z := if HitsZero(p.health, n) then 1 else 0;
    p.(health := p.health - PlayerHealthSubtract * n, life := p.life - z, round := p.round + z)
  }

  /** The closed form agrees with hitting one monster at a time. */
  lemma DamagedStep(p: PlayerState, n: nat)
    ensures Damaged(p, n + 1) == MonsterHit(Damaged(p, n))
  {
    HitsZeroBound(p.health, n);
  }

  /** The body of monster_mash's hit branch, applied to the player. */
  method TakeMonsterHit(player: Player)
    modifies player
    ensures player.State() == MonsterHit(old(player.State()))
  {
    player.health := player.health - PlayerHealthSubtract;
    if player.health == 0 {
      player.life := player.life - 1;
      player.round := player.round + 1;
    }
  }

  /** monster_mash's effect: one MonsterHit per monster removed, so a life
      is lost (and the round advances) only when health lands on exactly
      zero. */
  function AfterMonsters(p: PlayerState, hit: seq<bool>): (q: PlayerState)
    ensures q.health == p.health - PlayerHealthSubtract * Removed(hit)
    ensures q.score == p.score && q.roundCurrent == p.roundCurrent
    ensures q.life == p.life - (if HitsZero(p.health, Removed(hit)) then 1 else 0)
    ensures q.round == p.round + (if HitsZero(p.health, Removed(hit)) then 1 else 0)
  {
    Damaged(p, Removed(hit))
  }

  /** Health that overshoots zero — 10 health and one monster — costs no
      life and starts no new round. */
  lemma OvershootCostsNoLife(p: PlayerState)
    requires p.health == 10
    ensures AfterMonsters(p, [true]) == p.(health := -10)
  {
  }

  /** The last 20 health lost to a monster costs a life and advances the round. */
  lemma ExactZeroCostsLife(p: PlayerState)
    requires p.health == PlayerHealthSubtract
    ensures AfterMonsters(p, [true]) == p.(health := 0, life := p.life - 1, round := p.round + 1)
  {
  }

  /** Health that has landed on zero lies between 20 and 20 * n. */
  lemma {:induction false} HitsZeroBound(health: int, n: nat)
    ensures HitsZero(health, n) ==> PlayerHealthSubtract <= health <= PlayerHealthSubtract * n
  {
    if n > 0 && HitsZero(health, n) && health - PlayerHealthSubtract * n != 0 {
      HitsZeroBound(health, n - 1);
    }
  }

  /** In closed form: n hits pass through exactly zero iff the health is a
      positive multiple of 20 and at most 20 * n. */
  lemma {:induction false} HitsZeroClosedForm(health: int, n: nat)
    ensures HitsZero(health, n) <==>
      health > 0 && health % PlayerHealthSubtract == 0 && health / PlayerHealthSubtract <= n
  {
    if n == 0 {
      if health > 0 && health % PlayerHealthSubtract == 0 {
        assert health == PlayerHealthSubtract * (health / PlayerHealthSubtract);
      }
    } else {
      HitsZeroClosedForm(health, n - 1);
      if health == PlayerHealthSubtract * n {
        assert health / PlayerHealthSubtract == n;
      }
      if health > 0 && health % PlayerHealthSubtract == 0 && health / PlayerHealthSubtract == n {
        assert health == PlayerHealthSubtract * (health / PlayerHealthSubtract);
      }
    }
  }

  // ---------------------------------------------------------------------
  // Keys and movement

  /** Robot.to: the four key flags. */
  datatype Keys = Keys(left: bool, right: bool, up: bool, down: bool)

  /** The change the key flags ask for: right then left on x, down then up
      on y, the later assignment winning. */
  function KeyChange(to: Keys, velocity: int): (change: (int, int))
    ensures to.left ==> change.0 == -velocity
    ensures !to.left && to.right ==> change.0 == velocity
    ensures !to.left && !to.right ==> change.0 == 0
    ensures to.up ==> change.1 == -velocity
    ensures !to.up && to.down ==> change.1 == velocity
    ensures !to.up && !to.down ==> change.1 == 0
  {
    var x := if to.left then -velocity else if to.right then velocity else 0;
    var y := if to.up then -velocity else if to.down then velocity else 0;
    (x, y)
  }

  /** Left and right together move left, up and down together move up:
      opposite keys do not cancel. */
  lemma OppositeKeysDoNotCancel(velocity: int)
    requires velocity >= 1
    ensures KeyChange(Keys(true, true, true, true), velocity) == (-velocity, -velocity)
    ensures KeyChange(Keys(true, true, true, true), velocity) != (0, 0)
  {
  }

  /** The robot's position after the movement part of Robot.move: a
      blocked change is zeroed, otherwise applied. */
  function RobotPosition(r: Rect, to: Keys, velocity: int, doors: seq<Rect>, window: Rect): (pos: (int, int))
    ensures var c := KeyChange(to, velocity);
      Blocked(r, c.0, c.1, doors, window) ==> pos == (r.left, r.top)
    ensures var c := KeyChange(to, velocity);
      !Blocked(r, c.0, c.1, doors, window) ==>
        pos == (r.left + c.0, r.top + c.1) && Contains(window, MoveRect(r, c.0, c.1))
  {
    var c := KeyChange(to, velocity);
    var change := if Blocked(r, c.0, c.1, doors, window) then (0, 0) else c;
    (r.left + change.0, r.top + change.1)
  }

  /** A robot inside the window stays inside it. */
  lemma RobotStaysOnBoard(r: Rect, to: Keys, velocity: int, doors: seq<Rect>, window: Rect)
    requires Contains(window, r)
    ensures var pos := RobotPosition(r, to, velocity, doors, window);
      Contains(window, Rect(pos.0, pos.1, r.width, r.height))
  {
    var c := KeyChange(to, velocity);
    if !Blocked(r, c.0, c.1, doors, window) {
      assert Rect(r.left + c.0, r.top + c.1, r.width, r.height) == MoveRect(r, c.0, c.1);
    }
  }

  // ---------------------------------------------------------------------
  // The objects

  /** The rectangles of a list of monsters. */
  function MonsterRects(ms: seq<MonsterMove.Monster>): (rs: seq<Rect>)
    reads set i | 0 <= i < |ms| :: ms[i]
    ensures |rs| == |ms|
    ensures forall i :: 0 <= i < |ms| ==> rs[i] == ms[i].Bounds()
  {
    if ms == [] then [] else [ms[0].Bounds()] + MonsterRects(ms[1..])
  }

  /** Whether each item overlaps `loc`. */
  function Hits(loc: Rect, rs: seq<Rect>): (h: seq<bool>)
    ensures |h| == |rs|
    ensures forall i :: 0 <= i < |rs| ==> h[i] == IsOverlap(loc, rs[i])
  {
    if rs == [] then [] else [IsOverlap(loc, rs[0])] + Hits(loc, rs[1..])
  }

  /** The things dictionary: doors, coins and monsters. */
  class Things {
    var doors: seq<Rect>
    var coins: seq<Rect>
    var monsters: seq<MonsterMove.Monster>

    constructor (doors: seq<Rect>, coins: seq<Rect>, monsters: seq<MonsterMove.Monster>)
      ensures this.doors == doors && this.coins == coins && this.monsters == monsters
    {
      this.doors := doors;
      this.coins := coins;
      this.monsters := monsters;
    }
  }

  class Robot {
    var finex: int
    var finey: int
    const width: nat
    const height: nat
    const velocity: int
    var to: Keys

    function Bounds(): Rect
      reads this
    {
      Rect(finex, finey, width, height)
    }

    /** Robot.__init__: no key held. The velocity check of Moving.__init__
        is made by NewRobot. */
    constructor (finex: int, finey: int, width: nat, height: nat, velocity: int)
      requires velocity >= 1
      ensures this.finex == finex && this.finey == finey && this.width == width && this.height == height
      ensures this.velocity == velocity && to == Keys(false, false, false, false)
    {
      this.finex := finex;
      this.finey := finey;
      this.width := width;
      this.height := height;
      this.velocity := velocity;
      to := Keys(false, false, false, false);
    }

    /** Robot.found_coin. */
    method FoundCoin(things: Things, player: Player)
      modifies things`coins, player
      ensures things.coins == Kept(old(things.coins), Hits(Bounds(), old(things.coins)))
      ensures player.State() == AfterCoins(old(player.State()), old(things.coins), Hits(Bounds(), old(things.coins)))
    {
      var newLocation := Bounds();
      var items := things.coins;
      ghost var s := items;
      ghost var hit := Hits(newLocation, s);
      ghost var p0 := player.State();
      ghost var prefix: seq<Rect> := [];
      ghost var o := 0;
      ghost var removed := 0;
      var i := 0;
      while i < |items|
        invariant SweepInvariant(s, hit, items, prefix, o, i, removed)
        invariant player.State() == Collected(p0, removed, |s| > 0 && items == [])
        decreases |s| - o
      {
        var item := items[i];
        assert i == |prefix| && item == s[o];
        if IsOverlap(newLocation, item) {
          SweepRemoveStep(s, hit, items, prefix, o, i, removed);
          CollectedStep(p0, removed, |items| == 1);
          items := items[..i] + items[i + 1..];
          TakeCoin(player, |items| == 0);
          removed := removed + 1;
          if o + 1 < |s| {
            prefix := prefix + [s[o + 1]];
            o := o + 2;
          } else {
            o := |s|;
          }
        } else {
          SweepKeepStep(s, hit, items, prefix, o, i, removed);
          prefix := prefix + [s[o]];
          o := o + 1;
        }
        i := i + 1;
      }
      SweepDone(s, hit, items, prefix, o, i, removed);
      things.coins := items;
    }

    /** Robot.monster_mash. */
    method MonsterMash(things: Things, player: Player)
      modifies things`monsters, player
      ensures things.monsters == Kept(old(things.monsters), old(Hits(Bounds(), MonsterRects(things.monsters))))
      ensures player.State() == AfterMonsters(old(player.State()), old(Hits(Bounds(), MonsterRects(things.monsters))))
    {
      var newLocation := Bounds();
      var items := things.monsters;
      ghost var s := items;
      ghost var rs := MonsterRects(s);
      ghost var hit := Hits(newLocation, rs);
      ghost var p0 := player.State();
      ghost var prefix: seq<MonsterMove.Monster> := [];
      ghost var o := 0;
      ghost var removed := 0;
      var i := 0;
      while i < |items|
        invariant SweepInvariant(s, hit, items, prefix, o, i, removed)
        invariant player.State() == Damaged(p0, removed)
        decreases |s| - o
      {
        var item := items[i];
        assert i == |prefix| && item == s[o];
        assert hit[o] == IsOverlap(newLocation, item.Bounds()) by {
          assert rs[o] == s[o].Bounds();
        }
        if IsOverlap(newLocation, item.Bounds()) {
          SweepRemoveStep(s, hit, items, prefix, o, i, removed);
          DamagedStep(p0, removed);
          items := items[..i] + items[i + 1..];
          TakeMonsterHit(player);
          removed := removed + 1;
          if o + 1 < |s| {
            prefix := prefix + [s[o + 1]];
            o := o + 2;
          } else {
            o := |s|;
          }
        } else {
          SweepKeepStep(s, hit, items, prefix, o, i, removed);
          prefix := prefix + [s[o]];
          o := o + 1;
        }
        i := i + 1;
      }
      SweepDone(s, hit, items, prefix, o, i, removed);
      things.monsters := items;
    }

    /** The first half of Robot.move: the key change, zeroed when the moved
        robot would meet a door or leave the window. */
    method Walk(doors: seq<Geometry.Rect>, window: Geometry.Rect)
      modifies `finex, `finey
      ensures (finex, finey) == RobotPosition(old(Bounds()), to, velocity, doors, window)
    {
      var change := (0, 0);
      if to.right {
        change := (velocity, change.1);
      }
      if to.left {
        change := (-velocity, change.1);
      }
      if to.down {
        change := (change.0, velocity);
      }
      if to.up {
        change := (change.0, -velocity);
      }
      assert change == KeyChange(to, velocity);
      var collision := IsCollision(Bounds(), doors, change.0, change.1, window);
      if collision {
        change := (0, 0);
      }
      finex := finex + change.0;
      finey := finey + change.1;
    }

    /** Robot.move: the key change, zeroed when blocked, then the round
        sync and the coin and monster checks at the new position. */
    method Move(things: Things, window: Geometry.Rect, player: Player)
      modifies `finex, `finey, things`coins, things`monsters, player
      ensures (finex, finey) == RobotPosition(old(Bounds()), to, velocity, things.doors, window)
      ensures things.coins == Kept(old(things.coins), Hits(Bounds(), old(things.coins)))
      ensures things.monsters == Kept(old(things.monsters), Hits(Bounds(), old(MonsterRects(things.monsters))))
      ensures player.State() ==
        AfterMonsters(
          AfterCoins(RoundSyncOf(old(player.State())), old(things.coins), Hits(Bounds(), old(things.coins))),
          Hits(Bounds(), old(MonsterRects(things.monsters))))
    {
      ghost var r0 := Bounds();
      ghost var c0 := things.coins;
      ghost var m0 := things.monsters;
      ghost var rs0 := MonsterRects(m0);
      Walk(things.doors, window);
      ghost var r1 := Bounds();
      player.RoundSync();
      ghost var p1 := player.State();
      FoundCoin(things, player);
      ghost var p2 := player.State();
      assert Bounds() == r1;
      assert p2 == AfterCoins(p1, c0, Hits(r1, c0));
      assert things.monsters == m0 && MonsterRects(m0) == rs0;
      MonsterMash(things, player);
      assert Bounds() == r1;
      assert player.State() == AfterMonsters(p2, Hits(r1, rs0));
    }
  }

  /** Robot(...): Moving.__init__ raises ValueError for a velocity below 1. */
  method NewRobot(finex: int, finey: int, width: nat, height: nat, velocity: int)
    returns (r: Option<Robot>)
    ensures r.None? <==> velocity < 1
    ensures r.Some? ==> fresh(r.value) && r.value.Bounds() == Rect(finex, finey, width, height)
    ensures r.Some? ==> r.value.velocity == velocity && r.value.to == Keys(false, false, false, false)
  {
    if velocity < 1 {
      return None;
    }
    var robot := new Robot(finex, finey, width, height, velocity);
    return Some(robot);
  }
}
