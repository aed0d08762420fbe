/** The two ways a monster decides where to go: the pursuit vector of
    Monster.charge and the four-way probe of Monster.best_direction. */
module Navigation {
  import opened Geometry

  /** Within this distance on both axes a charging monster may move
      diagonally; farther away it moves along one axis only. */
  const MonsterChargeDirectThreshold: int := 40

  /** A probe that meets a door within this distance marks its direction
      as not clear. */
  const MonsterClearThreshold: real := 50.0

  function Abs(x: int): nat { if x < 0 then -x else x }

  /** int(d / abs(d)) for d != 0, and 0 for d == 0. */
  function Sign(d: int): (s: int)
    ensures s == -1 || s == 0 || s == 1
    ensures s * d == Abs(d)
    ensures s == 0 <==> d == 0
  {
    if d > 0 then 1 else if d < 0 then -1 else 0
  }

  /** Monster.charge: the change that takes a monster at (mx, my) towards
      the robot at (tx, ty). */
  function Charge(mx: int, my: int, tx: int, ty: int, velocity: int): (change: (int, int))
    requires velocity >= 1
    // each axis moves by velocity towards the target, or not at all
    ensures change.0 == 0 || change.0 == velocity * Sign(tx - mx)
    ensures change.1 == 0 || change.1 == velocity * Sign(ty - my)
    ensures change.0 * (tx - mx) >= 0 && change.1 * (ty - my) >= 0
    // close on both axes: diagonal pursuit, zero on an axis already matched
    ensures Abs(tx - mx) < MonsterChargeDirectThreshold && Abs(ty - my) < MonsterChargeDirectThreshold ==>
      change == (velocity * Sign(tx - mx), velocity * Sign(ty - my))
    // otherwise exactly one axis moves: horizontal when far horizontally
    ensures !(Abs(tx - mx) < MonsterChargeDirectThreshold && Abs(ty - my) < MonsterChargeDirectThreshold) ==>
      (change.0 == 0) != (change.1 == 0) &&
      (change.1 == 0 <==> Abs(tx - mx) >= MonsterChargeDirectThreshold)
  {
    var dx, dy := tx - mx, ty - my;
    var direction := (Sign(dx), Sign(dy));
    if Abs(dx) < MonsterChargeDirectThreshold && Abs(dy) < MonsterChargeDirectThreshold then
      (velocity * direction.0, velocity * direction.1)
    else if Abs(dx) >= MonsterChargeDirectThreshold then
      (velocity * direction.0, 0)
    else if Abs(dy) >= MonsterChargeDirectThreshold then
      (0, velocity * direction.1)
    else
      (0, 0)
  }

  /** With the game's monster velocity of one pixel, a charge step never
      overshoots: the Manhattan distance to the robot shrinks unless the
      monster already stands on the robot's position. */
  lemma ChargeCloses(mx: int, my: int, tx: int, ty: int)
    ensures var c := Charge(mx, my, tx, ty, 1);
      && Abs(tx - (mx + c.0)) <= Abs(tx - mx)
      && Abs(ty - (my + c.1)) <= Abs(ty - my)
      && ((mx, my) != (tx, ty) ==>
            Abs(tx - (mx + c.0)) + Abs(ty - (my + c.1)) < Abs(tx - mx) + Abs(ty - my))
  {
    var c := Charge(mx, my, tx, ty, 1);
    var dx, dy := tx - mx, ty - my;
    assert c.0 == 0 || c.0 == Sign(dx);
    assert c.1 == 0 || c.1 == Sign(dy);
    if (mx, my) != (tx, ty) {
      assert c != (0, 0);
    }
  }

  // ---------------------------------------------------------------------
  // best_direction: probing down, right, up and left in half-width steps

  /** The four probe directions in the order best_direction lists them:
      down, right, up, left. */
  const Paths: seq<(int, int)> := [(0, 1), (1, 0), (0, -1), (-1, 0)]

  /** One probe result: the direction, the distance reached, and whether
      that direction is clear (a path entry [direction, distance, clear]). */
  datatype PathResult = PathResult(dir: (int, int), dist: real, clear: bool)

  /** The pixel offset of probe step k (step = k/2 widths): the product
      width * step is truncated to an integer by Rect.move. */
  function ProbeOffset(width: nat, k: nat): nat {
    (width * k) / 2
  }

  /** The distance recorded for probe step k: abs(move_x + move_y), the
      untruncated width * k / 2. */
  function HalfWidths(k: nat, width: nat): real {
    (k * width) as real / 2.0
  }

  /** The rectangle probed at step k in direction p. */
  function ProbeRect(r: Rect, p: nat, k: nat): Rect
    requires p < 4
  {
    MoveRect(r, Paths[p].0 * ProbeOffset(r.width, k), Paths[p].1 * ProbeOffset(r.width, k))
  }

  /** Some door collides strictly (colliderect) with `t`. */
  predicate DoorCollides(t: Rect, doors: seq<Rect>) {
    exists i :: 0 <= i < |doors| && CollideRect(t, doors[i])
  }

  /** The probe loop stops at step k: a door is hit or the window left. */
  predicate ProbeStops(r: Rect, p: nat, doors: seq<Rect>, window: Rect, k: nat)
    requires p < 4
  {
    DoorCollides(ProbeRect(r, p, k), doors) || !Contains(window, ProbeRect(r, p, k))
  }

  /** How many pixels `r` may move in direction p and stay in the window. */
  function Room(r: Rect, p: nat, window: Rect): int
    requires p < 4
  {
    if p == 0 then window.Bottom() - r.Bottom()
    else if p == 1 then window.Right() - r.Right()
    else if p == 2 then r.top - window.top
    else r.left - window.left
  }

  /** No probe step at or beyond this one stays inside the window. */
  function ProbeBound(r: Rect, p: nat, window: Rect): (b: int)
    requires p < 4
    ensures b >= 2
  {
    2 * Max(Room(r, p, window), 0) + 2
  }

  /** A probe step whose rectangle is still in the window lies below the
      bound, which is why the probe loop terminates for a positive width. */
  lemma ContainedBelowBound(r: Rect, p: nat, window: Rect, k: nat)
    requires p < 4 && r.width > 0
    requires Contains(window, ProbeRect(r, p, k))
    ensures k < ProbeBound(r, p, window)
  {
    var off := ProbeOffset(r.width, k);
    assert off <= Room(r, p, window);
    assert r.width * k >= k by {
      assert r.width * k == (r.width - 1) * k + k;
      assert (r.width - 1) * k >= 0;
    }
    assert 2 * off >= r.width * k - 1;
  }

  /** The first step, from k on, at which the probe loop stops. */
  function FirstStop(r: Rect, p: nat, doors: seq<Rect>, window: Rect, k: nat): (s: nat)
    requires p < 4 && r.width > 0
    ensures s >= k
    ensures ProbeStops(r, p, doors, window, s)
    ensures forall j :: k <= j < s ==> !ProbeStops(r, p, doors, window, j)
    decreases ProbeBound(r, p, window) - k
  {
    if ProbeStops(r, p, doors, window, k) then k
    else
      ContainedBelowBound(r, p, window, k);
      FirstStop(r, p, doors, window, k + 1)
  }

  /** The outcome of probing direction p: the distance of the first step
      that stops, and clear unless a door was hit within the threshold. */
  function ProbePath(r: Rect, p: nat, doors: seq<Rect>, window: Rect): (path: PathResult)
    requires p < 4 && r.width > 0
    ensures path.dir == Paths[p]
    ensures exists k: nat :: k >= 1 && path.dist == HalfWidths(k, r.width)
    ensures !path.clear ==> path.dist <= MonsterClearThreshold
  {
    var s := FirstStop(r, p, doors, window, 1);
    var dist := HalfWidths(s, r.width);
    PathResult(Paths[p], dist, !(DoorCollides(ProbeRect(r, p, s), doors) && dist <= MonsterClearThreshold))
  }

  /** max(paths, key=distance): the index of the first largest element. */
  function FirstMaxIndex(ds: seq<real>): (i: nat)
    requires |ds| > 0
    ensures i < |ds|
    ensures forall j :: 0 <= j < |ds| ==> ds[j] <= ds[i]
    ensures forall j :: 0 <= j < i ==> ds[j] < ds[i]
  {
    if |ds| == 1 then 0
    else
      var i := FirstMaxIndex(ds[..|ds| - 1]);
      if ds[i] < ds[|ds| - 1] then |ds| - 1 else i
  }

  /** The probe results of the four directions, in order. */
  function AllPaths(r: Rect, doors: seq<Rect>, window: Rect): (ps: seq<PathResult>)
    requires r.width > 0
    ensures |ps| == 4
    ensures forall p :: 0 <= p < 4 ==> ps[p] == ProbePath(r, p, doors, window)
  {
    [ProbePath(r, 0, doors, window), ProbePath(r, 1, doors, window),
     ProbePath(r, 2, doors, window), ProbePath(r, 3, doors, window)]
  }

  function Distances(ps: seq<PathResult>): (ds: seq<real>)
    ensures |ds| == |ps| && forall i :: 0 <= i < |ps| ==> ds[i] == ps[i].dist
  {
    seq(|ps|, i requires 0 <= i < |ps| => ps[i].dist)
  }

  predicate AllClear(ps: seq<PathResult>) {
    forall i :: 0 <= i < |ps| ==> ps[i].clear
  }

  /** Monster.best_direction: the direction with the greatest distance
      (ties to the earliest of down, right, up, left) and whether every
      direction is clear; when even the best distance is below one width,
      the direction drawn by randrange(4), `fallback`, with one full width
      and clear = false. */
  function BestDirectionOf(r: Rect, doors: seq<Rect>, window: Rect, fallback: nat): (res: (PathResult, bool))
    requires r.width > 0 && fallback < 4
    ensures res.0.dir in Paths
    ensures res.0.dist >= r.width as real
    ensures exists k: nat :: k >= 2 && res.0.dist == HalfWidths(k, r.width)
    // clear fails when some direction meets a door within the threshold
    ensures res.1 ==> forall p :: 0 <= p < 4 ==> ProbePath(r, p, doors, window).clear
    ensures (exists p :: 0 <= p < 4 && ProbePath(r, p, doors, window).dist <= MonsterClearThreshold
                                   && DoorCollides(ProbeRect(r, p, FirstStop(r, p, doors, window, 1)), doors)) ==> !res.1
    // the degenerate case: every direction is shorter than one width
    ensures (forall p :: 0 <= p < 4 ==> ProbePath(r, p, doors, window).dist < r.width as real) ==>
      res.0.dir == Paths[fallback] && res.0.dist == r.width as real && !res.1
    // otherwise: the first longest direction, with its own distance
    ensures (exists p :: 0 <= p < 4 && ProbePath(r, p, doors, window).dist >= r.width as real) ==>
      exists i :: 0 <= i < 4 && res.0 == ProbePath(r, i, doors, window)
        && (forall j :: 0 <= j < 4 ==> ProbePath(r, j, doors, window).dist <= res.0.dist)
        && (forall j :: 0 <= j < i ==> ProbePath(r, j, doors, window).dist < res.0.dist)
        && res.1 == AllClear(AllPaths(r, doors, window))
  {
    var paths := AllPaths(r, doors, window);
    var i := FirstMaxIndex(Distances(paths));
    var best := paths[i];
    if best.dist < r.width as real then
      assert HalfWidths(2, r.width) == r.width as real;
      (PathResult(paths[fallback].dir, r.width as real, paths[fallback].clear), false)
    else
      var k: nat :| k >= 1 && best.dist == HalfWidths(k, r.width);
      assert HalfWidths(1, r.width) < r.width as real;
      assert Paths[i] in Paths;
      (best, AllClear(paths))
  }

  // ---------------------------------------------------------------------
  // The loops of best_direction

  /** The door loop of one probe step: for item in doors, colliderect,
      break on the first hit. */
  method CollidesAnyDoor(t: Rect, doors: seq<Rect>) returns (hit: bool)
    ensures hit <==> DoorCollides(t, doors)
  {
    hit := false;
    var i := 0;
    while i < |doors|
      invariant 0 <= i <= |doors|
      invariant !hit
      invariant forall j :: 0 <= j < i ==> !CollideRect(t, doors[j])
    {
      if CollideRect(t, doors[i]) {
        hit := true;
        break;
      }
      i := i + 1;
    }
  }

  /** The `while not collision` loop for one direction. best_direction's step
      0.5, 1.0, 1.5, ... is k / 2 here, k = 1, 2, 3, ... */
  method Probe(r: Rect, p: nat, doors: seq<Rect>, window: Rect) returns (path: PathResult)
    requires p < 4 && r.width > 0
    ensures path == ProbePath(r, p, doors, window)
  {
    var clear := true;
    var dist := 0.0;
    var collision := false;
    var k: nat := 1;
    while !collision
      invariant k >= 1
      invariant forall j :: 1 <= j < k ==> !ProbeStops(r, p, doors, window, j)
      invariant !collision ==> clear
      invariant collision ==> ProbeStops(r, p, doors, window, k)
      invariant collision ==> dist == HalfWidths(k, r.width)
      invariant collision ==> clear == !(DoorCollides(ProbeRect(r, p, k), doors) && dist <= MonsterClearThreshold)
      invariant k <= ProbeBound(r, p, window)
      decreases ProbeBound(r, p, window) - k + (if collision then 0 else 1)
    {
      var moveX := Paths[p].0 * ProbeOffset(r.width, k);
      var moveY := Paths[p].1 * ProbeOffset(r.width, k);
      var testRect := MoveRect(r, moveX, moveY);
      var hit := CollidesAnyDoor(testRect, doors);
      if hit {
        collision := true;
        dist := HalfWidths(k, r.width);
        if dist <= MonsterClearThreshold {
          clear := false;
        }
      }
      if !Contains(window, testRect) {
        collision := true;
        dist := HalfWidths(k, r.width);
      }
      if !collision {
        ContainedBelowBound(r, p, window, k);
        k := k + 1;
      }
    }
    var s := FirstStop(r, p, doors, window, 1);
    assert s == k;
    path := PathResult(Paths[p], dist, clear);
  }

  /** Monster.best_direction as the game runs it: probe the four
      directions in turn, then pick the best. */
  method BestDirection(r: Rect, doors: seq<Rect>, window: Rect, fallback: nat)
    returns (best: PathResult, clear: bool)
    requires r.width > 0 && fallback < 4
    ensures (best, clear) == BestDirectionOf(r, doors, window, fallback)
  {
    var paths := [PathResult(Paths[0], 0.0, true), PathResult(Paths[1], 0.0, true),
                  PathResult(Paths[2], 0.0, true), PathResult(Paths[3], 0.0, true)];
    for p := 0 to 4
      invariant |paths| == 4
      invariant forall q :: 0 <= q < p ==> paths[q] == ProbePath(r, q, doors, window)
    {
      var path := Probe(r, p, doors, window);
      paths := paths[p := path];
    }
    assert paths == AllPaths(r, doors, window);
    clear := AllClear(paths);
    best := paths[FirstMaxIndex(Distances(paths))];
    if best.dist < r.width as real {
      best := PathResult(paths[fallback].dir, r.width as real, paths[fallback].clear);
      clear := false;
    }
  }
}
