/** The three screens of the game and the key presses and events that move
    between them. */
module Views {
  import opened Input

  /** InstructionView, GameView, GameOverView, and the closed window. */
  datatype Screen = Instructions | Playing | GameOver | Closed

  /** What a view asks of the window: nothing, `arcade.exit()`, or
      `show_view` of a fresh, set-up game view or of a game-over view. */
  datatype Transition = Stay | Quit | ShowGame | ShowGameOver

  /** `on_key_press` of the instruction and game-over views: Escape or Q
      quit, Space starts a fresh game, every other key is ignored. */
  function MenuKeyPress(key: Key): (t: Transition)
    ensures t == Quit <==> IsQuitKey(key)
    ensures t == ShowGame <==> key == Space
    ensures t == Stay <==> !IsQuitKey(key) && key != Space
  {
    if key == Escape || key == Q then Quit
    else if key == Space then ShowGame
    else Stay
  }

  /** The transition the game view's `on_key_press` asks for. The key is
      processed as a movement key as well. */
  function GameKeyPress(key: Key): (t: Transition)
    ensures t == Quit <==> IsQuitKey(key)
    ensures t != Quit ==> t == Stay
  {
    if key == Escape || key == Q then Quit else Stay
  }

  /** The screen shown after a view's request. */
  function Next(s: Screen, t: Transition): Screen
  {
    if s == Closed then Closed
    else match t
      case Stay => s
      case Quit => Closed
      case ShowGame => Playing
      case ShowGameOver => GameOver
  }

  /** What can happen to the window: a key press, or a game frame in which
      the player died (fell off the map or touched an enemy or a hazard). */
  datatype ScreenEvent = KeyDown(key: Key) | Died

  /** The transition the shown view asks for on an event. Menu views run no
      game frames, so `Died` only matters while playing. */
  function Request(s: Screen, ev: ScreenEvent): Transition
  {
    match ev
    case KeyDown(key) =>
      if s == Playing then GameKeyPress(key) else MenuKeyPress(key)
    case Died =>
      if s == Playing then ShowGameOver else Stay
  }

  function Step(s: Screen, ev: ScreenEvent): (r: Screen)
    ensures r == GameOver ==> s == GameOver || (s == Playing && ev == Died)
    ensures r == Playing ==> s == Playing || (s in {Instructions, GameOver} && ev == KeyDown(Space))
    ensures s != Closed && ev.KeyDown? && IsQuitKey(ev.key) ==> r == Closed
    ensures s == Closed ==> r == Closed
    ensures s in {Instructions, GameOver} && ev == KeyDown(Space) ==> r == Playing
    ensures s == Playing && ev == Died ==> r == GameOver
    // only a quit key closes the window, and every other event is ignored
    ensures r == Closed <==> s == Closed || (ev.KeyDown? && IsQuitKey(ev.key))
    ensures (!(ev.KeyDown? && IsQuitKey(ev.key)) && !(s in {Instructions, GameOver} && ev == KeyDown(Space)) &&
             !(s == Playing && ev == Died)) ==> r == s
  {
    Next(s, Request(s, ev))
  }

  /** The screen after a sequence of events. */
  function Run(s: Screen, evs: seq<ScreenEvent>): Screen
    decreases |evs|
  {
    if evs == [] then s else Run(Step(s, evs[0]), evs[1..])
  }

  /** Once the window is closed nothing reopens it. */
  lemma {:induction false} ClosedIsFinal(evs: seq<ScreenEvent>)
    ensures Run(Closed, evs) == Closed
    decreases |evs|
  {
    if evs != [] {
      ClosedIsFinal(evs[1..]);
    }
  }

  /** Only Space starts a game from the instruction screen: without it the
      window shows the instructions until it is closed, and never a game or
      the game-over screen. */
  lemma {:induction false} NoGameWithoutSpace(s: Screen, evs: seq<ScreenEvent>)
    requires s == Instructions
    requires forall i :: 0 <= i < |evs| ==> evs[i] != KeyDown(Space)
    ensures Run(s, evs) in {Instructions, Closed}
    decreases |evs|
  {
    if evs != [] {
      var s' := Step(s, evs[0]);
      assert s' in {Instructions, Closed};
      forall i | 0 <= i < |evs[1..]| ensures evs[1..][i] != KeyDown(Space) {
        assert evs[1..][i] == evs[i + 1];
      }
      if s' == Closed {
        ClosedIsFinal(evs[1..]);
      } else {
        NoGameWithoutSpace(s', evs[1..]);
      }
    }
  }
}
