/** The patrol rule of `GameView.on_update`: an enemy that has run past one
    of its boundaries, while still moving towards it, turns round. */
module Patrol {

  /** An optional patrol boundary, as read from the tilemap object's
      properties; `Unset` is the framework's default `None`. */
  datatype Bound = Unset | At(x: int)

  /** A boundary takes part only when it is truthy: `None` and `0` do not. */
  predicate IsSet(b: Bound) {
    b.At? && b.x != 0
  }

  /** The right edge is strictly beyond a set right boundary. */
  predicate PastRight(right: int, boundaryRight: Bound) {
    IsSet(boundaryRight) && right > boundaryRight.x
  }

  /** The left edge is strictly beyond a set left boundary. */
  predicate PastLeft(left: int, boundaryLeft: Bound) {
    IsSet(boundaryLeft) && left < boundaryLeft.x
  }

  /** The horizontal speed after the two boundary checks, which run one after
      the other: first the right one, then the left one on the possibly
      flipped speed. */
  function Reverse(changeX: int, left: int, right: int, boundaryLeft: Bound, boundaryRight: Bound): (r: int)
    // the speed keeps its magnitude
    ensures r == changeX || r == -changeX
    // an enemy without boundaries is left alone, and so is one at rest
    ensures !IsSet(boundaryLeft) && !IsSet(boundaryRight) ==> r == changeX
    ensures changeX == 0 ==> r == 0
    // moving right: turns iff past the right boundary (and not also past the left one,
    // which would turn it back at once)
    ensures changeX > 0 ==>
      (r == -changeX <==> PastRight(right, boundaryRight) && !PastLeft(left, boundaryLeft))
    // moving left: turns iff past the left boundary
    ensures changeX < 0 ==> (r == -changeX <==> PastLeft(left, boundaryLeft))
  {
    var afterRight := if PastRight(right, boundaryRight) && changeX > 0 then changeX * -1 else changeX;
    if PastLeft(left, boundaryLeft) && afterRight < 0 then afterRight * -1 else afterRight
  }

  /** An enemy past its right boundary and moving right ends up moving left,
      provided its left edge is not also past its left boundary. */
  lemma TurnsAtRightBoundary(changeX: int, left: int, right: int, boundaryLeft: Bound, boundaryRight: Bound)
    requires changeX > 0 && PastRight(right, boundaryRight) && !PastLeft(left, boundaryLeft)
    ensures Reverse(changeX, left, right, boundaryLeft, boundaryRight) < 0
  {
  }

  /** An enemy past its left boundary and moving left ends up moving right. */
  lemma TurnsAtLeftBoundary(changeX: int, left: int, right: int, boundaryLeft: Bound, boundaryRight: Bound)
    requires changeX < 0 && PastLeft(left, boundaryLeft)
    ensures Reverse(changeX, left, right, boundaryLeft, boundaryRight) > 0
  {
  }

  /** An enemy whose edges are past neither of its boundaries keeps its speed,
      whichever way it moves. */
  lemma KeepsSpeedInside(changeX: int, left: int, right: int, boundaryLeft: Bound, boundaryRight: Bound)
    requires !PastRight(right, boundaryRight) && !PastLeft(left, boundaryLeft)
    ensures Reverse(changeX, left, right, boundaryLeft, boundaryRight) == changeX
  {
  }

  /** Once turned, an enemy that has not moved since is not turned back:
      applying the rule twice with the same edges is applying it once. */
  lemma ReverseSettles(changeX: int, left: int, right: int, boundaryLeft: Bound, boundaryRight: Bound)
    ensures var r := Reverse(changeX, left, right, boundaryLeft, boundaryRight);
            Reverse(r, left, right, boundaryLeft, boundaryRight) == r
  {
  }
}
