/** What Moving objects (the robot and the monsters) share: the check that
    a proposed position change is blocked, Moving.is_collision. */
module Moving {
  import opened Geometry

  /** The outcome of a constructor that can raise ValueError. */
  datatype Option<T> = None | Some(value: T)

  /** Some door overlaps `r` tolerantly. */
  predicate HitsDoor(r: Rect, doors: seq<Rect>) {
    exists i :: 0 <= i < |doors| && IsOverlap(r, doors[i])
  }

  /** The change (dx, dy) is blocked: the moved rectangle overlaps a door
      tolerantly, or it does not lie inside the window. */
  predicate Blocked(r: Rect, dx: int, dy: int, doors: seq<Rect>, window: Rect) {
    HitsDoor(MoveRect(r, dx, dy), doors) || !Contains(window, MoveRect(r, dx, dy))
  }

  /** Moving.is_collision: scans the doors until the first one the moved
      rectangle overlaps, then checks the window. Changes nothing. */
  method IsCollision(r: Rect, doors: seq<Rect>, dx: int, dy: int, window: Rect)
    returns (collision: bool)
    ensures collision <==> Blocked(r, dx, dy, doors, window)
  {
    collision := false;
    var newLocation := MoveRect(r, dx, dy);
    var i := 0;
    while i < |doors|
      invariant 0 <= i <= |doors|
      invariant !collision
      invariant forall j :: 0 <= j < i ==> !IsOverlap(newLocation, doors[j])
    {
      if IsOverlap(newLocation, doors[i]) {
        collision := true;
        break;
      }
      i := i + 1;
    }
    if !Contains(window, newLocation) {
      collision := true;
    }
  }

  /** A change that is not blocked lands inside the window and clear of
      every door: an unblocked move keeps an entity on the board. */
  lemma UnblockedStaysOnBoard(r: Rect, dx: int, dy: int, doors: seq<Rect>, window: Rect)
    requires !Blocked(r, dx, dy, doors, window)
    ensures Contains(window, MoveRect(r, dx, dy))
    ensures forall i :: 0 <= i < |doors| ==> !IsOverlap(MoveRect(r, dx, dy), doors[i])
  {
  }

  /** Without doors, only the window can block a change. */
  lemma NoDoorsOnlyWindowBlocks(r: Rect, dx: int, dy: int, window: Rect)
    ensures Blocked(r, dx, dy, [], window) <==> !Contains(window, MoveRect(r, dx, dy))
  {
  }
}
