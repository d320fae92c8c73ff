/** `center_camera_to_player`: the camera is placed so the player is in the
    middle of the viewport, but never scrolls below or left of the world origin. */
module Camera {

  /** SCREEN_WIDTH and SCREEN_HEIGHT, the size of the camera's viewport. */
  const ScreenWidth: int := 900
  const ScreenHeight: int := 490

  /** One component of the camera offset: the player's coordinate minus half
      the viewport, or 0 when that would be negative. */
  function Offset(position: int, viewport: int): (r: real)
    ensures r >= 0.0
    ensures r >= position as real - viewport as real / 2.0
    ensures r == position as real - viewport as real / 2.0 || r == 0.0
  {
    var centered := position as real - (viewport as real / 2.0);
    if centered < 0.0 then 0.0 else centered
  }

  /** Both components of the offset for a player at (`x`, `y`). */
  function CameraOffset(x: int, y: int, viewportWidth: int, viewportHeight: int): (r: (real, real))
    ensures r.0 >= 0.0 && r.1 >= 0.0
    ensures x as real >= viewportWidth as real / 2.0 ==> r.0 == x as real - viewportWidth as real / 2.0
    ensures y as real >= viewportHeight as real / 2.0 ==> r.1 == y as real - viewportHeight as real / 2.0
    ensures x as real < viewportWidth as real / 2.0 ==> r.0 == 0.0
    ensures y as real < viewportHeight as real / 2.0 ==> r.1 == 0.0
  {
    (Offset(x, viewportWidth), Offset(y, viewportHeight))
  }

  /** The camera never moves against the player: a player further right (or
      up) never gets a camera further left (or down). */
  lemma OffsetMonotone(p: int, q: int, viewport: int)
    requires p <= q
    ensures Offset(p, viewport) <= Offset(q, viewport)
  {
  }

  /** Near the left edge of the map the horizontal offset is clamped. At
      (400, 300) in the 900 x 490 viewport the centred offset would be
      (-50, 55), which is clamped to (0, 55). The player's start position
      (350, 300) gives the same camera. */
  lemma CameraClampedAtLeftEdge()
    ensures CameraOffset(400, 300, ScreenWidth, ScreenHeight) == (0.0, 55.0)
    ensures CameraOffset(350, 300, ScreenWidth, ScreenHeight) == (0.0, 55.0)
  {
  }
}
