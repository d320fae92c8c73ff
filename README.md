# Silent Valley platformer — a Dafny model of its game logic

The game has three screens: an instruction view, the game view and a game-over view.
This project models the parts of `main.py` that are decisions and bookkeeping rather than drawing:

- **Animation selectors.** Each tick, a bat enemy and the princess player pick a facing direction and a texture. The enemy advances its 4-picture walk cycle every fourth tick. The player shows jump, fall, idle or the next of 7 walk pictures, in that order of priority (`animation.dfy`, and the sprite classes in `sprites.dfy`).
- **Keyboard handling.**
  - Pressing a key sets a held-key flag, and releasing it clears the flag.
  - Each key change runs `process_keychange`, which sets the horizontal speed.
  - A jump starts only while the `jump_needs_reset` latch is clear. The latch is cleared only by releasing up or W (`input.dfy`).
- **Patrol rule.** An enemy that has run past a truthy boundary while still moving towards it has its speed flipped (`patrol.dfy`).
- **Camera.** The camera centres on the player but never scrolls left of or below the origin (`camera.dfy`).
- **Game view** (`game.dfy`):
  - the score reset in `setup`;
  - collecting coins, one point each;
  - falling off the map and touching an enemy or a hazard, both of which send the player back to the start and switch to the game-over screen;
  - the end-of-level check;
  - the key handlers, on a `GameView` class whose methods change its fields in place.
- **Screen transitions.** Escape or Q closes the window from any view. Space starts a new game from the instruction or game-over view. A death switches to the game-over view (`views.dfy`).

The model assumes that positions, sprite edges, speeds and patrol boundaries are whole pixels (`int`). Only the code's own constants are known to be integers. An enemy's speed and boundaries come from the map's object properties, and its edges come from the framework's hit boxes; fractional values from either are not modelled. The camera offset is `real`, because Python's `/` at main.py:662-663 yields a float.

The game depends on the `arcade` framework for three answers, and the model takes each of them as a parameter:
- the physics engine's `can_jump`;
- the list of coins the player overlaps;
- whether the player overlaps an enemy or a "Death" tile.

Three behaviours of the code are easy to misread; the model follows the code:
- A boundary takes part in the patrol rule only when it is truthy, so a boundary at x = 0 acts as "no boundary". The edge test is strict (`right > boundary_right`, `left < boundary_left`).
- Reaching the end of the map does not call `setup`. While the player stays at or past x = 5040, `level` goes up by one on every frame and the score is marked to survive the next `setup`.
- Falling off the map moves the player back to the start but keeps its speed. Only touching an enemy or a hazard sets the speed to zero.

## Model

| member | source | states |
|---|---|---|
| Animation.Face | main.py:239-245 | A negative speed faces left and a positive speed faces right. At rest the old direction is kept (shared by both sprites; see also main.py:362-368). |
| Animation.EnemyStart | main.py:176-198 | A new enemy faces right, both counters are 0, and it shows the right-facing idle picture. |
| Animation.EnemyTick | main.py:235-269 | At rest the enemy shows idle and keeps both counters. When moving with the throttle at 3, the walk index advances cyclically modulo 4, the throttle restarts at 0 and the walk picture is shown. Otherwise only the throttle counts up and the texture is kept. Both counters stay in 0..3. |
| Animation.EnemyTicks | main.py:235-269 | Any number of ticks keeps both enemy counters in 0..3. |
| Animation.EnemyWalkCadence | main.py:256-269 | After n ticks of a moving enemy, the throttle is (throttle + n) mod 4. The walk index has advanced once per throttle wrap, modulo 4. The facing follows the speed's sign. |
| Animation.EnemyFirstWalkFrame | main.py:249-269 | From the start state a moving enemy still shows idle after 3 ticks and shows walk picture 1 on its 4th tick. |
| Animation.PlayerStart | main.py:290-332 | A new player faces right, has walk index 0, and shows the right-facing idle picture. |
| Animation.PlayerTick | main.py:358-402 | Off a ladder, rising shows jump and falling shows fall, and neither changes the walk index. Otherwise, at rest the player shows idle, and when moving the walk index advances modulo 7 and that walk picture is shown. The facing follows the speed's sign. The index stays in 0..6. |
| Animation.PlayerTicks | main.py:358-402 | Any number of ticks keeps the player's walk index in 0..6. |
| Animation.PlayerWalkCycle | main.py:393-402 | On the ground, after n ticks of walking, the walk index is (index + n) mod 7 and that walk picture is shown. |
| Animation.AirborneKeepsWalkIndex | main.py:372-382 | Off a ladder, at any constant non-zero vertical speed, the walk index never changes, and after any tick the jump or fall picture is shown. |
| Sprites.Enemy.constructor | main.py:225-233 | A new enemy has the start animation state, plus the speed, edges and boundaries its tilemap object gives it (see also main.py:542-549). |
| Sprites.Enemy.UpdateAnimation | main.py:235-269 | In place, the enemy's animation fields become exactly `EnemyTick` of their old values. Speed, edges and boundaries are unchanged. |
| Sprites.PlayerCharacter.constructor | main.py:283-332 | A new player has the start animation state, is at rest and is not on a ladder. |
| Sprites.PlayerCharacter.UpdateAnimation | main.py:358-402 | In place, the player's animation fields become exactly `PlayerTick` of their old values. Speeds, position and ladder flag are unchanged. |
| Input.HorizontalSpeed | main.py:614-622 | The speed is +8 iff right is held without left. It is -8 iff left is held without right. It is 0 iff both or neither are held. |
| Input.HorizontalSpeedMirror | main.py:614-622 | Swapping the left and right flags negates the speed. |
| Input.ProcessKeychange | main.py:595-622 | A jump starts iff up is held without down, the player can jump, and the latch is clear. A jump sets the latch, and nothing else in the flags changes. The horizontal speed follows the held keys. |
| Input.Press | main.py:627-637 | Pressing a movement key sets exactly its own flag. The latch is untouched. |
| Input.Release | main.py:646-657 | Releasing a movement key clears exactly its own flag. The latch is cleared iff the key is up or W. |
| Input.NoJumpWhileLatched | main.py:605-610 | While the latch is set, no sequence of key presses and releases that does not release up or W starts a jump, and the latch stays set. |
| Input.OneJumpPerPress | main.py:605-610 | After an accepted jump, any number of further events short of releasing up or W add no second jump. |
| Input.ReleaseClearsLatch | main.py:646-648 | Releasing up or W always leaves the latch clear, and starts no jump. |
| Input.SecondPressIgnored | main.py:605-610 | From rest on the ground, pressing up jumps. Pressing W before releasing adds no second jump. |
| Patrol.Reverse | main.py:689-703 | The speed keeps its magnitude. Each of the following holds:<br>• With no truthy boundary, or at rest, the speed is unchanged.<br>• Moving right, the enemy turns iff its right edge is past the right boundary and its left edge is not also past the left boundary.<br>• Moving left, it turns iff its left edge is past the left boundary. |
| Patrol.TurnsAtRightBoundary | main.py:691-696 | An enemy moving right past its right boundary, and not past its left one, ends up moving left. |
| Patrol.TurnsAtLeftBoundary | main.py:698-703 | An enemy moving left past its left boundary ends up moving right. |
| Patrol.KeepsSpeedInside | main.py:689-703 | An enemy past neither boundary keeps its speed. |
| Patrol.ReverseSettles | main.py:689-703 | With the edges unchanged, applying the rule a second time changes nothing. |
| Camera.Offset | main.py:662-667 | The offset is never negative and never below the centred value. It is either the centred value or 0. |
| Camera.CameraOffset | main.py:661-669 | Each component is the player's coordinate minus half the viewport when that is not negative, and 0 otherwise. |
| Camera.OffsetMonotone | main.py:661-669 | A player further right or higher never gets a camera further left or lower. |
| Camera.CameraClampedAtLeftEdge | main.py:661-669 | A player at (400, 300) on the 900 x 490 screen gets the camera at (0, 55). So does a player at the start position (350, 300) (see main.py:506-507). |
| Views.MenuKeyPress | main.py:84-90 | In the game-over view, Escape or Q quits iff pressed, Space starts a game iff pressed, and every other key is ignored. The instruction view does the same (main.py:161-167). |
| Views.GameKeyPress | main.py:638-639 | The game view asks to quit iff Escape or Q is pressed, and otherwise stays. |
| Views.Step | main.py:84-90 | Space on a menu screen starts a game, and dying while playing shows the game-over screen. The game-over screen is reached only by dying while playing, and a game is entered only by Space from a menu screen. The window closes iff it was already closed or a quit key is pressed. Every other event leaves the screen as it is: any key other than Space or a quit key, a death outside a game, and Space during a game. |
| Views.ClosedIsFinal | main.py:84-86 | No sequence of events reopens a closed window. |
| Views.NoGameWithoutSpace | main.py:161-167 | From the instruction screen, without Space, the window only ever shows the instructions or is closed. |
| Game.Without | main.py:714-716 | Removing coins keeps exactly the coins not removed. It never grows the layer, and it keeps the coins distinct. |
| Game.WithoutTwice | main.py:714-716 | Removing coins one at a time is the same as removing the whole set at once. |
| Game.WithoutCount | main.py:714-716 | Removing a set of coins that are all present shrinks the layer by exactly the size of that set. |
| Game.CollectedCount | main.py:709-720 | Collecting a hit list of distinct coins from the layer shrinks the layer by exactly the list's length. |
| Game.GameView.constructor | main.py:410-454 | A new game view has no key held, score 0, a score reset requested, level 1, and an end of map at 0. |
| Game.GameView.ResetScore | main.py:498-502 | The score becomes 0 iff a reset was requested, and otherwise is kept. Afterwards a reset is requested again. |
| Game.GameView.Setup | main.py:463-511 | The cameras are at the origin and the score lines apply. A new player stands at (350, 300), at rest, in its start state. The level's coins and enemies are installed and the end of the map is 5040. |
| Game.GameView.ProcessKeychange | main.py:595-622 | The flags, the jump outcome and the player's horizontal speed are exactly `Input.ProcessKeychange` of the old flags. The vertical speed becomes 18 iff a jump starts. |
| Game.GameView.OnKeyPress | main.py:624-641 | The press is `Input.OnKey` of a `Pressed` event, applied to the view's flags and the player's speeds. The view asks to quit iff the key is Escape or Q. |
| Game.GameView.OnKeyRelease | main.py:643-659 | The release is `Input.OnKey` of a `Released` event, applied to the view's flags and the player's speeds. |
| Game.GameView.Patrol | main.py:687-703 | Every enemy's speed becomes `Patrol.Reverse` of its old speed, edges and boundaries. No other enemy field changes. |
| Game.GameView.CollectCoins | main.py:708-720 | The coin layer loses exactly the hit coins and keeps the others in order. The score goes up by one per coin, and the layer shrinks by the hit count. |
| Game.GameView.CheckFallOff | main.py:722-728 | The player died iff it was below y = -100. If so, it is put back at (350, 300) and its speed is kept. |
| Game.GameView.CheckHazard | main.py:730-743 | The player died iff it touched an enemy or a hazard. If so, it is put back at (350, 300) at rest. |
| Game.GameView.CheckEndOfMap | main.py:745-751 | At or past the end of the map, the level goes up by one and the score is kept for the next setup. Otherwise both are unchanged. |
| Game.GameView.CenterCameraToPlayer | main.py:661-669 | The camera is moved to `Camera.CameraOffset` of the player's position on the 900 x 490 screen. |
| Game.GameView.OnUpdate | main.py:687-754 | One frame after the physics step: patrol, coins, the two death checks, the end-of-map check and the camera, each as above. The view switches to game over iff the player fell off or touched a hazard. |
| Game.NewGame | main.py:87-90 | Space on a menu view gives a fresh game view with score 0, level 1, no key held, the player at the start, and the first level's layers (see also main.py:164-167). |
| Game.JumpDebounce | main.py:605-659 | Through the view's handlers on the ground: pressing up jumps, then pressing W while up is held does not, then after releasing both, pressing W jumps again. |

## Left out

- Drawing, fonts, textures, sound, music and the random pick of a music track are left out. They do not affect the game state, so textures are abstract values (`Idle`, `Jump`, `Fall`, `Walk(frame)` for one facing).
- The tilemap loader and the scene's sprite lists are replaced by the layers `Setup` receives. `Setup` does not compute an enemy's spawn position (main.py:530-540). That is the game's own floating-point arithmetic on tilemap data, and the map data is not part of this model.
- `Game.GameView.Setup`: the model assumes every enemy object has type "bat". main.py:525-528 has no branch for any other type. For a first object of another type, `enemy` is unbound. For a later one, the previous enemy is moved and added to the layer again. Neither case is modelled.
- Physics is not modelled: the physics engine's update, gravity, walls, moving platforms, and `scene.update` moving the enemies by their speed are framework code. The model receives the sprites' edges and the collision answers as inputs instead. `OnUpdate` starts at the boundary loop. The physics engine is given the player, the walls and the moving platforms (main.py:559-563). The boundary loop reads none of them and touches only enemies, so running physics first does not change the result.
- The dispatch of `scene.update_animation` to every sprite (main.py:675-677) is not modelled. The two selectors the game defines are modelled through the sprite classes' `UpdateAnimation`; the framework's own coin, statue and hazard animations are not.
- The assignment of `player_sprite.can_jump` at main.py:679-683 is left out: no code ever reads that attribute.
- The unused `jumping` and `climbing` fields of the player are left out. `is_on_ladder` is kept because the animation rules consult it, although nothing ever sets it.
- `arcade.exit()` and `show_view` are modelled as requested `Transition` values that the window applies, not as calls into the window.
- `Game.GameView.constructor`: the view owns a player from the start rather than `None`. That player is replaced by `setup`, which every view runs before it is shown.
- `Game.GameView.CenterCameraToPlayer`: the camera's viewport size is the fixed 900 x 490 that `setup` gives it, not a field read from the camera object.
- Fractional positions, edges, speeds and boundaries are not modelled. The model assumes whole pixels throughout. That is exact for the code's own constants, but the map properties and the framework's hit boxes are not part of this model, so they could give fractions.
