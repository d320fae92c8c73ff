/** The game view (`GameView`): score and level bookkeeping, the key
    handlers, and the game logic of one frame that runs after the physics
    engine has moved the player. */
module Game {
  import opened Animation
  import opened Patrol
  import opened Sprites
  import opened Input
  import opened Camera
  import opened Views

  /** END_OF_MAP: reaching this x coordinate finishes the level. */
  const EndOfMap: int := 5040
  /** PLAYER_START_X, PLAYER_START_Y: where the player (re)spawns. */
  const PlayerStartX: int := 350
  const PlayerStartY: int := 300
  /** Below this y coordinate the player has fallen off the map. */
  const FallLimit: int := -100

  /** A coin sprite of the "Coins" layer, by identity. */
  type CoinId = nat

  /** A sprite list holds each sprite at most once. */
  predicate Distinct<T(==)>(s: seq<T>) {
    forall i, j :: 0 <= i < j < |s| ==> s[i] != s[j]
  }

  function Elems(s: seq<CoinId>): set<CoinId> {
    set c | c in s
  }

  /** The coins left after the coins in `gone` are taken out, in their old order. */
  function Without(coins: seq<CoinId>, gone: set<CoinId>): (r: seq<CoinId>)
    ensures |r| <= |coins|
    ensures forall c :: c in r <==> c in coins && c !in gone
    ensures Distinct(coins) ==> Distinct(r)
    decreases |coins|
  {
    if coins == [] then []
    else if coins[0] in gone then Without(coins[1..], gone)
    else [coins[0]] + Without(coins[1..], gone)
  }

  /** Taking coins out one batch after another is taking them all out at once. */
  lemma {:induction false} WithoutTwice(coins: seq<CoinId>, a: set<CoinId>, b: set<CoinId>)
    ensures Without(Without(coins, a), b) == Without(coins, a + b)
    decreases |coins|
  {
    if coins != [] {
      WithoutTwice(coins[1..], a, b);
      if coins[0] !in a {
        assert Without(coins, a) == [coins[0]] + Without(coins[1..], a);
        assert Without(coins, a)[1..] == Without(coins[1..], a);
      }
    }
  }

  /** The tail of a list of distinct coins is distinct, misses the head, and
      together with the head holds the same coins. */
  lemma DistinctTail(s: seq<CoinId>)
    requires Distinct(s) && s != []
    ensures Distinct(s[1..])
    ensures s[0] !in Elems(s[1..])
    ensures Elems(s) == {s[0]} + Elems(s[1..])
  {
    var rest := s[1..];
    forall i, j | 0 <= i < j < |rest| ensures rest[i] != rest[j] {
      assert rest[i] == s[i + 1] && rest[j] == s[j + 1];
    }
    forall i | 0 <= i < |rest| ensures rest[i] != s[0] {
      assert rest[i] == s[i + 1];
    }
    forall x ensures x in Elems(s) <==> x == s[0] || x in Elems(rest) {
      if x in Elems(s) && x != s[0] {
        var i :| 0 <= i < |s| && s[i] == x;
        assert rest[i - 1] == x;
      }
    }
  }

  /** Taking out coins that are all present removes exactly that many. */
  lemma {:induction false} WithoutCount(coins: seq<CoinId>, gone: set<CoinId>)
    requires Distinct(coins) && gone <= Elems(coins)
    ensures |Without(coins, gone)| == |coins| - |gone|
    decreases |coins|
  {
    if coins != [] {
      var c, rest := coins[0], coins[1..];
      DistinctTail(coins);
      var gone' := gone - {c};
      WithoutCount(rest, gone');
      WithoutOutside(rest, gone, c);
      if c in gone {
        assert |gone| == |gone'| + 1;
        assert Without(coins, gone) == Without(rest, gone);
      } else {
        assert gone' == gone;
        assert Without(coins, gone) == [c] + Without(rest, gone);
      }
    }
  }

  /** Taking out no coins leaves the list as it is. */
  lemma {:induction false} WithoutNothing(coins: seq<CoinId>)
    ensures Without(coins, {}) == coins
    decreases |coins|
  {
    if coins != [] {
      WithoutNothing(coins[1..]);
    }
  }

  /** A coin that is not among `coins` makes no difference to `Without`. */
  lemma {:induction false} WithoutOutside(coins: seq<CoinId>, gone: set<CoinId>, c: CoinId)
    requires c !in Elems(coins)
    ensures Without(coins, gone) == Without(coins, gone - {c})
    decreases |coins|
  {
    if coins != [] {
      assert c != coins[0];
      assert c !in Elems(coins[1..]) by {
        forall i | 0 <= i < |coins[1..]| ensures coins[1..][i] != c {
          assert coins[1..][i] == coins[i + 1];
        }
      }
      WithoutOutside(coins[1..], gone, c);
    }
  }

  /** A list of distinct coins has as many elements as coins. */
  lemma {:induction false} DistinctElems(s: seq<CoinId>)
    requires Distinct(s)
    ensures |Elems(s)| == |s|
    decreases |s|
  {
    if s != [] {
      DistinctTail(s);
      DistinctElems(s[1..]);
    }
  }

  /** Removing the next hit coin extends the removed prefix of the hit list by one. */
  lemma RemoveNext(coins: seq<CoinId>, hits: seq<CoinId>, i: nat)
    requires i < |hits|
    ensures Without(Without(coins, Elems(hits[..i])), {hits[i]}) == Without(coins, Elems(hits[..i + 1]))
  {
    assert hits[..i + 1] == hits[..i] + [hits[i]];
    assert Elems(hits[..i + 1]) == Elems(hits[..i]) + {hits[i]};
    WithoutTwice(coins, Elems(hits[..i]), {hits[i]});
  }

  /** Collecting distinct coins that are all in the layer shrinks it by
      exactly the number of coins collected. */
  lemma CollectedCount(coins: seq<CoinId>, hits: seq<CoinId>)
    requires Distinct(coins) && Distinct(hits)
    requires forall i :: 0 <= i < |hits| ==> hits[i] in coins
    ensures |Without(coins, Elems(hits))| == |coins| - |hits|
  {
    DistinctElems(hits);
    assert Elems(hits) <= Elems(coins);
    WithoutCount(coins, Elems(hits));
  }

  /** Every enemy of a layer keeps its animation counters in range. */
  ghost predicate AllValid(enemies: seq<Enemy>)
    reads enemies
  {
    forall i :: 0 <= i < |enemies| ==> enemies[i].Valid()
  }

  class GameView {
    /** `up_pressed`, `down_pressed`, `left_pressed`, `right_pressed` and `jump_needs_reset`. */
    var keys: Keys
    var player: PlayerCharacter
    /** The "Enemies" layer. */
    var enemies: seq<Enemy>
    /** The "Coins" layer. */
    var coins: seq<CoinId>
    var score: int
    var resetScore: bool
    var endOfMap: int
    var level: int
    /** Where the camera, whose viewport is the whole screen, has been moved to. */
    var cameraX: real
    var cameraY: real

    ghost predicate Valid()
      reads this, player, enemies
    {
      player.Valid() && AllValid(enemies) &&
      Distinct(enemies) && Distinct(coins) &&
      score >= 0 && level >= 1
    }

    /** `GameView.__init__`: no key held, score 0, score reset requested,
        level 1. The view owns a player from the start; `setup` replaces it
        before any other handler runs. */
    constructor ()
      ensures Valid() && fresh(player)
      ensures keys == NoKeys
      ensures score == 0 && resetScore && level == 1 && endOfMap == 0
      ensures enemies == [] && coins == []
    {
      keys := NoKeys;
      player := new PlayerCharacter();
      enemies, coins := [], [];
      score := 0;
      resetScore := true;
      endOfMap := 0;
      level := 1;
      cameraX, cameraY := 0.0, 0.0;
    }

    /** The score lines of `setup`: the score is cleared only when a reset
        was requested, and afterwards a reset is requested again. */
    method ResetScore()
      requires Valid()
      modifies this`score, this`resetScore
      ensures Valid()
      ensures score == (if old(resetScore) then 0 else old(score))
      ensures resetScore
    {
      if resetScore {
        score := 0;
      }
      resetScore := true;
    }

    /** `GameView.setup` with the level's coin and enemy layers, as the
        tilemap loader builds them: cameras at the origin, the score lines, a
        new player at the start position, and the end of the map. */
    method Setup(levelCoins: seq<CoinId>, levelEnemies: seq<Enemy>)
      requires Valid()
      requires Distinct(levelCoins) && Distinct(levelEnemies)
      requires AllValid(levelEnemies)
      modifies this`cameraX, this`cameraY, this`score, this`resetScore
      modifies this`player, this`coins, this`enemies, this`endOfMap
      ensures Valid()
      ensures score == (if old(resetScore) then 0 else old(score))
      ensures resetScore
      ensures fresh(player) && player.Anim() == PlayerStart() && !player.isOnLadder
      ensures player.centerX == PlayerStartX && player.centerY == PlayerStartY
      ensures player.changeX == 0 && player.changeY == 0
      ensures coins == levelCoins && enemies == levelEnemies && endOfMap == EndOfMap
      ensures cameraX == 0.0 && cameraY == 0.0
    {
      cameraX, cameraY := 0.0, 0.0;
      coins := levelCoins;
      ResetScore();
      var p := new PlayerCharacter();
      p.centerX, p.centerY := PlayerStartX, PlayerStartY;
      player := p;
      endOfMap := EndOfMap;
      enemies := levelEnemies;
    }

    /** `process_keychange`: maybe start a jump, then set the horizontal speed
        from the held keys. `canJump` is the physics engine's answer. */
    method ProcessKeychange(canJump: bool) returns (jumped: bool)
      requires Valid()
      modifies this`keys, player`changeX, player`changeY
      ensures Valid()
      ensures var e := Input.ProcessKeychange(old(keys), canJump);
        keys == e.keys && jumped == e.jumped && player.changeX == e.changeX &&
        player.changeY == (if e.jumped then PlayerJumpSpeed else old(player.changeY))
    {
      jumped := false;
      if keys.up && !keys.down {
        if canJump && !keys.jumpNeedsReset {
          player.changeY := PlayerJumpSpeed;
          keys := keys.(jumpNeedsReset := true);
          jumped := true;
        }
      }
      if keys.right && !keys.left {
        player.changeX := PlayerMovementSpeed;
      } else if keys.left && !keys.right {
        player.changeX := -PlayerMovementSpeed;
      } else {
        player.changeX := 0;
      }
    }

    /** `GameView.on_key_press`: set the key's flag, ask to quit on Escape or
        Q, and run `process_keychange` in every case. */
    method OnKeyPress(key: Key, canJump: bool) returns (t: Transition, jumped: bool)
      requires Valid()
      modifies this`keys, player`changeX, player`changeY
      ensures Valid()
      ensures t == GameKeyPress(key)
      ensures var e := OnKey(old(keys), Pressed(key, canJump));
        keys == e.keys && jumped == e.jumped && player.changeX == e.changeX &&
        player.changeY == (if e.jumped then PlayerJumpSpeed else old(player.changeY))
    {
      t := if IsQuitKey(key) then Quit else Stay;
      keys := Press(keys, key);
      jumped := ProcessKeychange(canJump);
    }

    /** `GameView.on_key_release`: clear the key's flag (releasing up or W
        also clears the jump latch), then run `process_keychange`. */
    method OnKeyRelease(key: Key, canJump: bool) returns (jumped: bool)
      requires Valid()
      modifies this`keys, player`changeX, player`changeY
      ensures Valid()
      ensures var e := OnKey(old(keys), Released(key, canJump));
        keys == e.keys && jumped == e.jumped && player.changeX == e.changeX &&
        player.changeY == (if e.jumped then PlayerJumpSpeed else old(player.changeY))
    {
      keys := Release(keys, key);
      jumped := ProcessKeychange(canJump);
    }

    /** The boundary loop of `on_update`: every enemy's speed goes through the
        patrol rule; nothing else about the enemies changes. */
    method Patrol()
      requires Valid()
      modifies enemies`changeX
      ensures Valid()
      ensures forall i :: 0 <= i < |enemies| ==>
        enemies[i].changeX == Reverse(old(enemies[i].changeX), enemies[i].left, enemies[i].right,
                                      enemies[i].boundaryLeft, enemies[i].boundaryRight)
    {
      var i := 0;
      while i < |enemies|
        invariant 0 <= i <= |enemies|
        invariant forall j :: 0 <= j < i ==>
          enemies[j].changeX == Reverse(old(enemies[j].changeX), enemies[j].left, enemies[j].right,
                                        enemies[j].boundaryLeft, enemies[j].boundaryRight)
        invariant forall j :: i <= j < |enemies| ==> enemies[j].changeX == old(enemies[j].changeX)
      {
        var e := enemies[i];
        if IsSet(e.boundaryRight) && e.right > e.boundaryRight.x && e.changeX > 0 {
          e.changeX := e.changeX * -1;
        }
        if IsSet(e.boundaryLeft) && e.left < e.boundaryLeft.x && e.changeX < 0 {
          e.changeX := e.changeX * -1;
        }
        i := i + 1;
      }
    }

    /** The coin loop of `on_update`: every coin the player touches (`hits`,
        the framework's collision list) leaves the coin layer and adds one point. */
    method CollectCoins(hits: seq<CoinId>)
      requires Valid()
      requires Distinct(hits) && forall i :: 0 <= i < |hits| ==> hits[i] in coins
      modifies this`coins, this`score
      ensures Valid()
      ensures coins == Without(old(coins), Elems(hits))
      ensures score == old(score) + |hits|
      ensures |coins| == |old(coins)| - |hits|
    {
      WithoutNothing(coins);
      assert Elems(hits[..0]) == {};
      var i := 0;
      while i < |hits|
        invariant 0 <= i <= |hits|
        invariant coins == Without(old(coins), Elems(hits[..i]))
        invariant score == old(score) + i
      {
        // take the coin out of the layer and add one point (main.py:716-720)
        RemoveNext(old(coins), hits, i);
        coins := Without(coins, {hits[i]});
        score := score + 1;
        i := i + 1;
      }
      assert hits[..|hits|] == hits;
      CollectedCount(old(coins), hits);
    }

    /** The fall-off check of `on_update`: below y = -100 the player is put
        back at the start (its speed is kept) and the game is over. */
    method CheckFallOff() returns (died: bool)
      requires Valid()
      modifies player`centerX, player`centerY
      ensures Valid()
      ensures died == (old(player.centerY) < FallLimit)
      ensures player.centerX == (if died then PlayerStartX else old(player.centerX))
      ensures player.centerY == (if died then PlayerStartY else old(player.centerY))
    {
      died := player.centerY < FallLimit;
      if died {
        player.centerX := PlayerStartX;
        player.centerY := PlayerStartY;
      }
    }

    /** The hazard check of `on_update`: when the framework reports that the
        player overlaps an enemy or a "Death" tile, the player stops, goes back
        to the start and the game is over. */
    method CheckHazard(touched: bool) returns (died: bool)
      requires Valid()
      modifies player`centerX, player`centerY, player`changeX, player`changeY
      ensures Valid()
      ensures died == touched
      ensures player.centerX == (if touched then PlayerStartX else old(player.centerX))
      ensures player.centerY == (if touched then PlayerStartY else old(player.centerY))
      ensures player.changeX == (if touched then 0 else old(player.changeX))
      ensures player.changeY == (if touched then 0 else old(player.changeY))
    {
      died := touched;
      if touched {
        player.changeX := 0;
        player.changeY := 0;
        player.centerX := PlayerStartX;
        player.centerY := PlayerStartY;
      }
    }

    /** The end-of-level check of `on_update`: at or past the end of the map
        the level counter goes up and the score is marked to survive the next
        `setup`. `setup` itself is not called. */
    method CheckEndOfMap()
      requires Valid()
      modifies this`level, this`resetScore
      ensures Valid()
      ensures var reached := player.centerX >= endOfMap;
        level == old(level) + (if reached then 1 else 0) &&
        resetScore == (old(resetScore) && !reached)
    {
      if player.centerX >= endOfMap {
        level := level + 1;
        resetScore := false;
      }
    }

    /** `center_camera_to_player`. */
    method CenterCameraToPlayer()
      requires Valid()
      modifies this`cameraX, this`cameraY
      ensures Valid()
      ensures (cameraX, cameraY) == CameraOffset(player.centerX, player.centerY, ScreenWidth, ScreenHeight)
    {
      var screenCenterX := player.centerX as real - (ScreenWidth as real / 2.0);
      var screenCenterY := player.centerY as real - (ScreenHeight as real / 2.0);
      if screenCenterX < 0.0 {
        screenCenterX := 0.0;
      }
      if screenCenterY < 0.0 {
        screenCenterY := 0.0;
      }
      cameraX, cameraY := screenCenterX, screenCenterY;
    }

    /** The game logic of `on_update` from the boundary loop on, in the
        source's order. The physics engine has already moved the player;
        `coinHits` and `touched` are the framework's collision answers. */
    method OnUpdate(coinHits: seq<CoinId>, touched: bool) returns (t: Transition)
      requires Valid()
      requires Distinct(coinHits) && forall i :: 0 <= i < |coinHits| ==> coinHits[i] in coins
      modifies this`coins, this`score, this`level, this`resetScore, this`cameraX, this`cameraY
      modifies player`centerX, player`centerY, player`changeX, player`changeY, enemies`changeX
      ensures Valid()
      // patrol
      ensures forall i :: 0 <= i < |enemies| ==>
        enemies[i].changeX == Reverse(old(enemies[i].changeX), enemies[i].left, enemies[i].right,
                                      enemies[i].boundaryLeft, enemies[i].boundaryRight)
      // coins
      ensures coins == Without(old(coins), Elems(coinHits))
      ensures score == old(score) + |coinHits|
      // death
      ensures var died := old(player.centerY) < FallLimit || touched;
        t == (if died then ShowGameOver else Stay) &&
        player.centerX == (if died then PlayerStartX else old(player.centerX)) &&
        player.centerY == (if died then PlayerStartY else old(player.centerY))
      ensures player.changeX == (if touched then 0 else old(player.changeX))
      ensures player.changeY == (if touched then 0 else old(player.changeY))
      // end of map
      ensures var reached := player.centerX >= endOfMap;
        level == old(level) + (if reached then 1 else 0) &&
        resetScore == (old(resetScore) && !reached)
      // camera
      ensures (cameraX, cameraY) == CameraOffset(player.centerX, player.centerY, ScreenWidth, ScreenHeight)
    {
      Patrol();
      CollectCoins(coinHits);
      var fell := CheckFallOff();
      var hurt := CheckHazard(touched);
      t := if fell || hurt then ShowGameOver else Stay;
      ghost var x, y := player.centerX, player.centerY;
      CheckEndOfMap();
      assert player.centerX == x && player.centerY == y;
      CenterCameraToPlayer();
    }
  }

  /** What the instruction and game-over views do on Space: a new game view,
      set up with the first level's layers. Its score starts at 0. */
  method NewGame(levelCoins: seq<CoinId>, levelEnemies: seq<Enemy>) returns (g: GameView)
    requires Distinct(levelCoins) && Distinct(levelEnemies)
    requires AllValid(levelEnemies)
    ensures fresh(g) && fresh(g.player) && g.Valid()
    ensures g.score == 0 && g.resetScore && g.level == 1 && g.keys == NoKeys
    ensures g.player.centerX == PlayerStartX && g.player.centerY == PlayerStartY
    ensures g.coins == levelCoins && g.enemies == levelEnemies && g.endOfMap == EndOfMap
  {
    g := new GameView();
    g.Setup(levelCoins, levelEnemies);
  }

  /** The jump latch through the game view's own handlers, on the ground
      throughout: pressing up jumps; pressing W while up is held does not;
      releasing up and W and pressing W again jumps once more. */
  method JumpDebounce() returns (first: bool, second: bool, third: bool)
    ensures first && !second && third
  {
    var g := new GameView();
    var t, jumped := g.OnKeyPress(ArrowUp, true);
    first := jumped;
    t, second := g.OnKeyPress(W, true);
    jumped := g.OnKeyRelease(ArrowUp, true);
    jumped := g.OnKeyRelease(W, true);
    t, third := g.OnKeyPress(W, true);
  }
}
