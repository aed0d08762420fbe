/** Axis-aligned rectangles as the game uses them (a pygame Rect: left, top,
    width, height), the strict tests pygame offers (contains, colliderect)
    and the game's own tolerant overlap test, Moving.is_overlap. */
module Geometry {

  /** The number of pixels two rectangles must share on each axis before
      the tolerant test counts them as overlapping. */
  const MovingOverlapFactor: int := 20

  datatype Rect = Rect(left: int, top: int, width: nat, height: nat) {
    function Right(): int { left + width }
    function Bottom(): int { top + height }
  }

  /** Rect.move(dx, dy): the same rectangle shifted by (dx, dy). */
  function MoveRect(r: Rect, dx: int, dy: int): (m: Rect)
    ensures m.width == r.width && m.height == r.height
    ensures m.Right() - r.Right() == dx && m.Bottom() - r.Bottom() == dy
  {
    Rect(r.left + dx, r.top + dy, r.width, r.height)
  }

  /** Rect.contains: `inner` lies entirely inside `outer`. */
  predicate Contains(outer: Rect, inner: Rect) {
    && outer.left <= inner.left
    && outer.top <= inner.top
    && inner.Right() <= outer.Right()
    && inner.Bottom() <= outer.Bottom()
    && inner.left < outer.Right()
    && inner.top < outer.Bottom()
  }

  /** Rect.colliderect: the rectangles share interior area; a rectangle of
      zero width or height collides with nothing. */
  predicate CollideRect(a: Rect, b: Rect) {
    && a.width != 0 && a.height != 0 && b.width != 0 && b.height != 0
    && a.left < b.Right() && b.left < a.Right()
    && a.top < b.Bottom() && b.top < a.Bottom()
  }

  function Max(x: int, y: int): int { if x < y then y else x }
  function Min(x: int, y: int): int { if x < y then x else y }

  /** len(range(lo, hi + 1)): the number of integers from lo through hi. */
  function InclusiveCount(lo: int, hi: int): (n: nat)
    ensures n == 0 <==> hi < lo
    ensures lo <= hi ==> n == hi - lo + 1
  {
    if hi < lo then 0 else hi - lo + 1
  }

  /** list(range(lo, hi)): the integers from lo up to, not including, hi. */
  function RangeList(lo: int, hi: int): seq<int>
    decreases hi - lo
  {
    if hi <= lo then [] else [lo] + RangeList(lo + 1, hi)
  }

  /** InclusiveCount is the length of list(range(lo, hi + 1)). */
  lemma {:induction false} InclusiveCountIsRangeLength(lo: int, hi: int)
    ensures InclusiveCount(lo, hi) == |RangeList(lo, hi + 1)|
    decreases hi - lo
  {
    if lo <= hi {
      InclusiveCountIsRangeLength(lo + 1, hi);
    }
  }

  /** The inclusive number of pixel columns the two rectangles share. */
  function SharedWidth(a: Rect, b: Rect): nat {
    InclusiveCount(Max(a.left, b.left), Min(a.Right(), b.Right()))
  }

  /** The inclusive number of pixel rows the two rectangles share. */
  function SharedHeight(a: Rect, b: Rect): nat {
    InclusiveCount(Max(a.top, b.top), Min(a.Bottom(), b.Bottom()))
  }

  /** Moving.is_overlap: both shared lengths exceed MovingOverlapFactor. */
  predicate IsOverlap(a: Rect, b: Rect) {
    SharedWidth(a, b) > MovingOverlapFactor && SharedHeight(a, b) > MovingOverlapFactor
  }

  /** The tolerant overlap does not depend on the order of its arguments. */
  lemma IsOverlapSymmetric(a: Rect, b: Rect)
    ensures IsOverlap(a, b) <==> IsOverlap(b, a)
    ensures SharedWidth(a, b) == SharedWidth(b, a) && SharedHeight(a, b) == SharedHeight(b, a)
  {
  }

  /** The tolerant overlap holds exactly when both axes share more than
      twenty pixels, each shared length being
      max(0, min(right) - max(left) + 1). */
  lemma IsOverlapExactly(a: Rect, b: Rect)
    ensures IsOverlap(a, b) <==>
      (Min(a.Right(), b.Right()) - Max(a.left, b.left) + 1 > MovingOverlapFactor &&
       Min(a.Bottom(), b.Bottom()) - Max(a.top, b.top) + 1 > MovingOverlapFactor)
  {
  }

  /** Rectangles that only touch, or share a strip of at most twenty
      pixels on either axis, never overlap tolerantly. */
  lemma ThinContactIsNoOverlap(a: Rect, b: Rect)
    requires Min(a.Right(), b.Right()) - Max(a.left, b.left) < MovingOverlapFactor
          || Min(a.Bottom(), b.Bottom()) - Max(a.top, b.top) < MovingOverlapFactor
    ensures !IsOverlap(a, b)
  {
  }

  /** The tolerant overlap is stronger than pygame's strict collision:
      anything it reports, colliderect reports too. */
  lemma IsOverlapImpliesCollideRect(a: Rect, b: Rect)
    requires IsOverlap(a, b)
    ensures CollideRect(a, b)
  {
  }

  /** A rectangle strictly inside another one keeps all of its own area
      shared with it: the tolerant test reduces to the rectangle's size. */
  lemma ContainedOverlap(outer: Rect, inner: Rect)
    requires Contains(outer, inner)
    ensures IsOverlap(outer, inner) <==> inner.width >= MovingOverlapFactor && inner.height >= MovingOverlapFactor
  {
  }
}
