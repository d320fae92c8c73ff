/** Keyboard handling of the game view: four key-held flags, the jump latch
    `jump_needs_reset`, and what every key change does to the player's speed. */
module Input {

  /** The keys the views react to; every other key is `Other`. */
  datatype Key = ArrowUp | ArrowDown | ArrowLeft | ArrowRight | W | A | S | D | Escape | Q | Space | Other

  /** PLAYER_MOVEMENT_SPEED, pixels per frame. */
  const PlayerMovementSpeed: int := 8
  /** PLAYER_JUMP_SPEED, the vertical speed a jump starts with. */
  const PlayerJumpSpeed: int := 18

  predicate IsUpKey(key: Key) { key == ArrowUp || key == W }
  predicate IsDownKey(key: Key) { key == ArrowDown || key == S }
  predicate IsLeftKey(key: Key) { key == ArrowLeft || key == A }
  predicate IsRightKey(key: Key) { key == ArrowRight || key == D }
  /** Escape and Q close the window in every view. */
  predicate IsQuitKey(key: Key) { key == Escape || key == Q }

  /** The held flags and the jump latch. */
  datatype Keys = Keys(up: bool, down: bool, left: bool, right: bool, jumpNeedsReset: bool)

  /** Nothing held and the latch clear, as a new game view starts. */
  const NoKeys := Keys(false, false, false, false, false)

  /** The horizontal speed the held left/right flags ask for. */
  function HorizontalSpeed(left: bool, right: bool): (v: int)
    ensures v == PlayerMovementSpeed <==> right && !left
    ensures v == -PlayerMovementSpeed <==> left && !right
    ensures v == 0 <==> left == right
  {
    if right && !left then PlayerMovementSpeed
    else if left && !right then -PlayerMovementSpeed
    else 0
  }

  /** Swapping the left and right flags reverses the speed. */
  lemma HorizontalSpeedMirror(left: bool, right: bool)
    ensures HorizontalSpeed(right, left) == -HorizontalSpeed(left, right)
  {
  }

  /** What one `process_keychange` call does: the new flags (only the latch
      can change), whether a jump started, and the new horizontal speed. The
      vertical speed becomes PlayerJumpSpeed when `jumped` and is otherwise kept. */
  datatype Effect = Effect(keys: Keys, jumped: bool, changeX: int)

  /** `process_keychange`, with `canJump` the physics engine's answer to
      `can_jump(y_distance=10)`. */
  function ProcessKeychange(k: Keys, canJump: bool): (e: Effect)
    ensures e.jumped <==> k.up && !k.down && canJump && !k.jumpNeedsReset
    ensures e.jumped ==> e.keys.jumpNeedsReset
    ensures e.keys == k.(jumpNeedsReset := k.jumpNeedsReset || e.jumped)
    ensures e.changeX == PlayerMovementSpeed <==> k.right && !k.left
    ensures e.changeX == -PlayerMovementSpeed <==> k.left && !k.right
    ensures e.changeX == 0 <==> k.left == k.right
  {
    var jumped := k.up && !k.down && canJump && !k.jumpNeedsReset;
    var k' := if jumped then k.(jumpNeedsReset := true) else k;
    Effect(k', jumped, HorizontalSpeed(k.left, k.right))
  }

  /** The flags after a key goes down, before `process_keychange` runs. */
  function Press(k: Keys, key: Key): (r: Keys)
    ensures r.jumpNeedsReset == k.jumpNeedsReset
    ensures r.up == (k.up || IsUpKey(key)) && r.down == (k.down || IsDownKey(key))
    ensures r.left == (k.left || IsLeftKey(key)) && r.right == (k.right || IsRightKey(key))
  {
    if IsUpKey(key) then k.(up := true)
    else if IsDownKey(key) then k.(down := true)
    else if IsLeftKey(key) then k.(left := true)
    else if IsRightKey(key) then k.(right := true)
    else k
  }

  /** The flags after a key goes up, before `process_keychange` runs. Releasing
      up or W is the only thing that clears the jump latch. */
  function Release(k: Keys, key: Key): (r: Keys)
    ensures r.jumpNeedsReset == (k.jumpNeedsReset && !IsUpKey(key))
    ensures r.up == (k.up && !IsUpKey(key)) && r.down == (k.down && !IsDownKey(key))
    ensures r.left == (k.left && !IsLeftKey(key)) && r.right == (k.right && !IsRightKey(key))
  {
    if IsUpKey(key) then k.(up := false, jumpNeedsReset := false)
    else if IsDownKey(key) then k.(down := false)
    else if IsLeftKey(key) then k.(left := false)
    else if IsRightKey(key) then k.(right := false)
    else k
  }

  /** A key event delivered to the game view, with the physics engine's
      `can_jump` answer at that moment. */
  datatype KeyEvent = Pressed(key: Key, canJump: bool) | Released(key: Key, canJump: bool)

  /** `on_key_press` / `on_key_release`: update one flag, then `process_keychange`. */
  function OnKey(k: Keys, ev: KeyEvent): Effect
  {
    match ev
    case Pressed(key, canJump) => ProcessKeychange(Press(k, key), canJump)
    case Released(key, canJump) => ProcessKeychange(Release(k, key), canJump)
  }

  /** Whether an event releases the jump key. */
  predicate ReleasesJump(ev: KeyEvent) {
    ev.Released? && IsUpKey(ev.key)
  }

  /** The flags after a sequence of key events. */
  function KeysAfter(k: Keys, evs: seq<KeyEvent>): Keys
    decreases |evs|
  {
    if evs == [] then k else KeysAfter(OnKey(k, evs[0]).keys, evs[1..])
  }

  /** How many jumps a sequence of key events starts. */
  function JumpsIn(k: Keys, evs: seq<KeyEvent>): nat
    decreases |evs|
  {
    if evs == [] then 0
    else (if OnKey(k, evs[0]).jumped then 1 else 0) + JumpsIn(OnKey(k, evs[0]).keys, evs[1..])
  }

  /** Jump debounce: while the latch is set, no sequence of key events that
      does not release up or W starts a jump, and the latch stays set. */
  lemma {:induction false} NoJumpWhileLatched(k: Keys, evs: seq<KeyEvent>)
    requires k.jumpNeedsReset
    requires forall i :: 0 <= i < |evs| ==> !ReleasesJump(evs[i])
    ensures JumpsIn(k, evs) == 0
    ensures KeysAfter(k, evs).jumpNeedsReset
    decreases |evs|
  {
    if evs != [] {
      assert !ReleasesJump(evs[0]);
      var k' := OnKey(k, evs[0]).keys;
      assert k'.jumpNeedsReset;
      forall i | 0 <= i < |evs[1..]| ensures !ReleasesJump(evs[1..][i]) {
        assert evs[1..][i] == evs[i + 1];
      }
      NoJumpWhileLatched(k', evs[1..]);
    }
  }

  /** An accepted jump is followed by no other until the jump key is released. */
  lemma OneJumpPerPress(k: Keys, ev: KeyEvent, evs: seq<KeyEvent>)
    requires OnKey(k, ev).jumped
    requires forall i :: 0 <= i < |evs| ==> !ReleasesJump(evs[i])
    ensures JumpsIn(k, [ev] + evs) == 1
  {
    assert ([ev] + evs)[1..] == evs;
    NoJumpWhileLatched(OnKey(k, ev).keys, evs);
  }

  /** After the jump key is released, the latch is clear again. */
  lemma ReleaseClearsLatch(k: Keys, key: Key, canJump: bool)
    requires IsUpKey(key)
    ensures !OnKey(k, Released(key, canJump)).keys.jumpNeedsReset
    ensures !OnKey(k, Released(key, canJump)).jumped
  {
  }

  /** Pressing up on the ground with the latch clear jumps; pressing it again
      before releasing does not. */
  lemma SecondPressIgnored()
    ensures OnKey(NoKeys, Pressed(ArrowUp, true)).jumped
    ensures JumpsIn(NoKeys, [Pressed(ArrowUp, true), Pressed(W, true)]) == 1
  {
  }
}
