/** The two animated sprite classes of the game, `Enemy` (with its only
    subclass `BatEnemy`) and `PlayerCharacter`. Each keeps its animation state
    in fields that `UpdateAnimation` changes in place. The model assumes that
    positions, edges and speeds are whole pixels. */
module Sprites {
  import opened Animation
  import opened Patrol

  class Enemy {
    /** Horizontal speed; the patrol rule flips it. */
    var changeX: int
    /** Left and right edges of the sprite, maintained by the framework from
        its position and hit box. */
    var left: int
    var right: int
    var boundaryLeft: Bound
    var boundaryRight: Bound
    var facing: Facing
    var curTexture: int
    var shouldUpdateWalk: int
    var texture: Texture

    /** The animation part of the enemy's state. */
    function Anim(): EnemyAnim
      reads this
    {
      EnemyAnim(facing, curTexture, shouldUpdateWalk, texture)
    }

    ghost predicate Valid()
      reads this
    {
      EnemyInRange(Anim())
    }

    /** A bat as created from one object of the "Enemies" layer: facing right,
        idle, with both counters at zero, and the patrol properties the object
        carries. */
    constructor (changeX: int, left: int, right: int, boundaryLeft: Bound, boundaryRight: Bound)
      ensures Valid() && Anim() == EnemyStart()
      ensures this.changeX == changeX && this.left == left && this.right == right
      ensures this.boundaryLeft == boundaryLeft && this.boundaryRight == boundaryRight
    {
      this.changeX := changeX;
      this.left, this.right := left, right;
      this.boundaryLeft, this.boundaryRight := boundaryLeft, boundaryRight;
      facing := RightFacing;
      curTexture := 0;
      shouldUpdateWalk := 0;
      texture := Idle(RightFacing);
    }

    /** `Enemy.update_animation`: turn to the direction of travel; stand idle
        when not moving; otherwise advance the walk picture on every fourth tick. */
    method UpdateAnimation()
      requires Valid()
      modifies this
      ensures Valid()
      ensures Anim() == EnemyTick(old(Anim()), changeX)
      ensures changeX == old(changeX) && left == old(left) && right == old(right)
      ensures boundaryLeft == old(boundaryLeft) && boundaryRight == old(boundaryRight)
    {
      if changeX < 0 && facing == RightFacing {
        facing := LeftFacing;
      } else if changeX > 0 && facing == LeftFacing {
        facing := RightFacing;
      }
      if changeX == 0 {
        texture := Idle(facing);
        return;
      }
      if shouldUpdateWalk == 3 {
        curTexture := curTexture + 1;
        if curTexture > 3 {
          curTexture := 0;
        }
        texture := Walk(curTexture, facing);
        shouldUpdateWalk := 0;
        return;
      }
      shouldUpdateWalk := shouldUpdateWalk + 1;
    }
  }

  class PlayerCharacter {
    var changeX: int
    var changeY: int
    var centerX: int
    var centerY: int
    /** Never set to true anywhere in the game; kept because the animation rules consult it. */
    var isOnLadder: bool
    var facing: Facing
    var curTexture: int
    var texture: Texture

    /** The animation part of the player's state. */
    function Anim(): PlayerAnim
      reads this
    {
      PlayerAnim(facing, curTexture, texture)
    }

    ghost predicate Valid()
      reads this
    {
      PlayerInRange(Anim())
    }

    /** A new player: at rest at the origin, facing right, idle, off any ladder. */
    constructor ()
      ensures Valid() && Anim() == PlayerStart() && !isOnLadder
      ensures changeX == 0 && changeY == 0 && centerX == 0 && centerY == 0
    {
      changeX, changeY := 0, 0;
      centerX, centerY := 0, 0;
      isOnLadder := false;
      facing := RightFacing;
      curTexture := 0;
      texture := Idle(RightFacing);
    }

    /** `PlayerCharacter.update_animation`: turn to the direction of travel,
        then show jump, fall, idle or the next walk picture, first rule that applies. */
    method UpdateAnimation()
      requires Valid()
      modifies this
      ensures Valid()
      ensures Anim() == PlayerTick(old(Anim()), changeX, changeY, isOnLadder)
      ensures changeX == old(changeX) && changeY == old(changeY)
      ensures centerX == old(centerX) && centerY == old(centerY) && isOnLadder == old(isOnLadder)
    {
      if changeX < 0 && facing == RightFacing {
        facing := LeftFacing;
      } else if changeX > 0 && facing == LeftFacing {
        facing := RightFacing;
      }
      if changeY > 0 && !isOnLadder {
        texture := Jump(facing);
        return;
      } else if changeY < 0 && !isOnLadder {
        texture := Fall(facing);
        return;
      }
      if changeX == 0 {
        texture := Idle(facing);
        return;
      }
      curTexture := curTexture + 1;
      if curTexture > 6 {
        curTexture := 0;
      }
      texture := Walk(curTexture, facing);
    }
  }
}
