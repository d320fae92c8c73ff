/** The per-tick animation selectors of the enemy and the player sprites.
    Textures are abstract: which picture of the sprite sheet is shown, and for
    which facing direction. */
module Animation {

  /** RIGHT_FACING (0) and LEFT_FACING (1); they index a texture pair. */
  datatype Facing = RightFacing | LeftFacing

  /** The texture on screen: a picture of the idle, jump, fall or walk set,
      taken from the pair for one facing direction. */
  datatype Texture =
    | Idle(facing: Facing)
    | Jump(facing: Facing)
    | Fall(facing: Facing)
    | Walk(frame: int, facing: Facing)

  /** Number of walk pictures an enemy has (`_flying1` .. `_flying4`). */
  const EnemyWalkFrames: int := 4
  /** Number of walk pictures the player has (`walk1` .. `walk7`). */
  const PlayerWalkFrames: int := 7
  /** An enemy advances its walk picture on the tick its throttle counter reads this. */
  const WalkThrottle: int := 3

  /** The facing direction after a tick: the sign of the horizontal speed
      decides, and standing still keeps the old direction. */
  function Face(changeX: int, facing: Facing): (r: Facing)
    ensures changeX < 0 ==> r == LeftFacing
    ensures changeX > 0 ==> r == RightFacing
    ensures changeX == 0 ==> r == facing
  {
    match facing
    case RightFacing => if changeX < 0 then LeftFacing else RightFacing
    case LeftFacing => if changeX > 0 then RightFacing else LeftFacing
  }

  // ---------------------------------------------------------------------
  // Enemy

  /** The animation fields of an enemy: `facing_direction`, `cur_texture`,
      `should_update_walk` and the texture shown. */
  datatype EnemyAnim = EnemyAnim(facing: Facing, curTexture: int, shouldUpdateWalk: int, texture: Texture)

  /** Both counters of an enemy stay in 0..3. */
  predicate EnemyInRange(s: EnemyAnim) {
    0 <= s.curTexture < EnemyWalkFrames && 0 <= s.shouldUpdateWalk <= WalkThrottle
  }

  /** The enemy starts facing right, on walk index 0, throttle 0, idle right. */
  function EnemyStart(): (s: EnemyAnim)
    ensures EnemyInRange(s) && s.texture == Idle(s.facing)
  {
    EnemyAnim(RightFacing, 0, 0, Idle(RightFacing))
  }

  /** One call of `Enemy.update_animation` for horizontal speed `changeX`. */
  function EnemyTick(s: EnemyAnim, changeX: int): (r: EnemyAnim)
    requires EnemyInRange(s)
    ensures EnemyInRange(r)
    ensures changeX < 0 ==> r.facing == LeftFacing
    ensures changeX > 0 ==> r.facing == RightFacing
    // standing still: idle picture, both counters kept
    ensures changeX == 0 ==>
      r == s.(texture := Idle(s.facing))
    // moving, throttle full: the walk picture advances cyclically and the throttle restarts
    ensures changeX != 0 && s.shouldUpdateWalk == WalkThrottle ==>
      r.curTexture == (s.curTexture + 1) % EnemyWalkFrames && r.shouldUpdateWalk == 0 &&
      r.texture == Walk(r.curTexture, r.facing)
    // moving, throttle not full: only the throttle counts up; the texture is kept
    ensures changeX != 0 && s.shouldUpdateWalk != WalkThrottle ==>
      r.curTexture == s.curTexture && r.shouldUpdateWalk == s.shouldUpdateWalk + 1 &&
      r.texture == s.texture
  {
    var f := Face(changeX, s.facing);
    if changeX == 0 then
      s.(facing := f, texture := Idle(f))
    else if s.shouldUpdateWalk == WalkThrottle then
      var c := if s.curTexture + 1 > 3 then 0 else s.curTexture + 1;
      s.(facing := f, curTexture := c, shouldUpdateWalk := 0, texture := Walk(c, f))
    else
      s.(facing := f, shouldUpdateWalk := s.shouldUpdateWalk + 1)
  }

  /** `n` consecutive calls of `Enemy.update_animation` at a constant speed. */
  function EnemyTicks(s: EnemyAnim, changeX: int, n: nat): (r: EnemyAnim)
    requires EnemyInRange(s)
    ensures EnemyInRange(r)
    decreases n
  {
    if n == 0 then s else EnemyTick(EnemyTicks(s, changeX, n - 1), changeX)
  }

  /** While an enemy moves, its walk picture advances once every four ticks:
      after `n` ticks the throttle has counted `n` steps modulo 4 and the
      picture has advanced once for every time the throttle wrapped. */
  lemma {:induction false} EnemyWalkCadence(s: EnemyAnim, changeX: int, n: nat)
    requires EnemyInRange(s) && changeX != 0
    ensures EnemyTicks(s, changeX, n).shouldUpdateWalk == (s.shouldUpdateWalk + n) % 4
    ensures EnemyTicks(s, changeX, n).curTexture ==
            (s.curTexture + (s.shouldUpdateWalk + n) / 4) % EnemyWalkFrames
    ensures n > 0 ==> EnemyTicks(s, changeX, n).facing == Face(changeX, s.facing)
    decreases n
  {
    if n > 0 {
      EnemyWalkCadence(s, changeX, n - 1);
      var k := s.shouldUpdateWalk + n - 1;
      if k % 4 == 3 {
        assert (k + 1) / 4 == k / 4 + 1 && (k + 1) % 4 == 0;
      } else {
        assert (k + 1) / 4 == k / 4 && (k + 1) % 4 == k % 4 + 1;
      }
    }
  }

  /** From the start state, a walking enemy first shows a walk picture on its
      fourth tick, and that picture is walk index 1. */
  lemma EnemyFirstWalkFrame(changeX: int)
    requires changeX != 0
    ensures EnemyTicks(EnemyStart(), changeX, 3).texture == Idle(RightFacing)
    ensures EnemyTicks(EnemyStart(), changeX, 4).texture == Walk(1, Face(changeX, RightFacing))
  {
  }

  // ---------------------------------------------------------------------
  // Player

  /** The animation fields of the player: `character_face_direction`,
      `cur_texture` and the texture shown. */
  datatype PlayerAnim = PlayerAnim(facing: Facing, curTexture: int, texture: Texture)

  /** The player's walk index stays in 0..6. */
  predicate PlayerInRange(s: PlayerAnim) {
    0 <= s.curTexture < PlayerWalkFrames
  }

  /** The player starts facing right, on walk index 0, idle right. */
  function PlayerStart(): (s: PlayerAnim)
    ensures PlayerInRange(s) && s.texture == Idle(s.facing)
  {
    PlayerAnim(RightFacing, 0, Idle(RightFacing))
  }

  /** One call of `PlayerCharacter.update_animation`. The rules are tried in
      order: rising, falling (both only off a ladder), standing, walking. */
  function PlayerTick(s: PlayerAnim, changeX: int, changeY: int, onLadder: bool): (r: PlayerAnim)
    requires PlayerInRange(s)
    ensures PlayerInRange(r)
    ensures changeX < 0 ==> r.facing == LeftFacing
    ensures changeX > 0 ==> r.facing == RightFacing
    ensures changeX == 0 ==> r.facing == s.facing
    ensures changeY > 0 && !onLadder ==> r.texture == Jump(r.facing) && r.curTexture == s.curTexture
    ensures changeY < 0 && !onLadder ==> r.texture == Fall(r.facing) && r.curTexture == s.curTexture
    ensures (changeY == 0 || onLadder) && changeX == 0 ==>
      r.texture == Idle(r.facing) && r.curTexture == s.curTexture
    ensures (changeY == 0 || onLadder) && changeX != 0 ==>
      r.curTexture == (s.curTexture + 1) % PlayerWalkFrames && r.texture == Walk(r.curTexture, r.facing)
  {
    var f := Face(changeX, s.facing);
    if changeY > 0 && !onLadder then
      s.(facing := f, texture := Jump(f))
    else if changeY < 0 && !onLadder then
      s.(facing := f, texture := Fall(f))
    else if changeX == 0 then
      s.(facing := f, texture := Idle(f))
    else
      var c := if s.curTexture + 1 > 6 then 0 else s.curTexture + 1;
      s.(facing := f, curTexture := c, texture := Walk(c, f))
  }

  /** `n` consecutive calls of `PlayerCharacter.update_animation` at constant velocity. */
  function PlayerTicks(s: PlayerAnim, changeX: int, changeY: int, onLadder: bool, n: nat): (r: PlayerAnim)
    requires PlayerInRange(s)
    ensures PlayerInRange(r)
    decreases n
  {
    if n == 0 then s else PlayerTick(PlayerTicks(s, changeX, changeY, onLadder, n - 1), changeX, changeY, onLadder)
  }

  /** Walking on the ground, the player's picture advances on every tick and
      cycles through exactly seven pictures. */
  lemma {:induction false} PlayerWalkCycle(s: PlayerAnim, changeX: int, n: nat)
    requires PlayerInRange(s) && changeX != 0
    ensures PlayerTicks(s, changeX, 0, false, n).curTexture == (s.curTexture + n) % PlayerWalkFrames
    ensures n > 0 ==> PlayerTicks(s, changeX, 0, false, n).texture ==
                      Walk((s.curTexture + n) % PlayerWalkFrames, Face(changeX, s.facing))
    decreases n
  {
    if n > 0 {
      PlayerWalkCycle(s, changeX, n - 1);
      var k := s.curTexture + n - 1;
      assert (k % 7 + 1) % 7 == (k + 1) % 7;
    }
  }

  /** Off a ladder, at any constant non-zero vertical speed, the walk index is
      frozen. A real jump passes through vertical speed 0 at its apex, and on
      that tick a moving player takes the walk rule (see `PlayerTick`). */
  lemma {:induction false} AirborneKeepsWalkIndex(s: PlayerAnim, changeX: int, changeY: int, n: nat)
    requires PlayerInRange(s) && changeY != 0
    ensures PlayerTicks(s, changeX, changeY, false, n).curTexture == s.curTexture
    ensures n > 0 ==> PlayerTicks(s, changeX, changeY, false, n).texture ==
                      (if changeY > 0 then Jump(Face(changeX, s.facing)) else Fall(Face(changeX, s.facing)))
    decreases n
  {
    if n > 0 {
      AirborneKeepsWalkIndex(s, changeX, changeY, n - 1);
    }
  }
}
