/** The game-mode state machine and one tick of the main loop: the event
    handler, the early exits, then paddles, ball, scoring and speed clamp. */
module Lifecycle {
  import opened Geometry
  import opened Pong
  import opened Paddles
  import opened Ball
  import opened Scoring

  /** The commands honoured while the mode is Playing, paused or not:
      P toggles the pause flag, T cycles the theme, R resets the game. */
  function PlayingKey(g: Game, k: Key, coin: nat -> bool): (r: Game)
    ensures r.mode == g.mode && r.left == g.left && r.right == g.right
    ensures k == KeyP ==> r == g.(paused := !g.paused)
    ensures k == KeyT ==> r == g.(theme := (g.theme + 1) % THEME_COUNT) && r.theme < THEME_COUNT
    ensures k == KeyR ==> r == ResetGame(g, coin)
    ensures k == OtherKey ==> r == g
  {
    match k
    case KeyP => g.(paused := !g.paused)
    case KeyT => g.(theme := (g.theme + 1) % THEME_COUNT)
    case KeyR => ResetGame(g, coin)
    case OtherKey => g
  }

  /** One event of the queue. The three mode tests run one after the other
      on the updated mode, so a key that leaves Start is then also handled
      as a Playing command; a key in GameOver resets the game and returns to
      Start. Nothing here ever enters GameOver, and paddles never move. */
  function HandleEvent(g: Game, e: Event, coin: nat -> bool): (r: Game)
    ensures r.left == g.left && r.right == g.right
    ensures r.mode == GameOver ==> g.mode == GameOver && e == OtherEvent
    ensures g.theme < THEME_COUNT ==> r.theme < THEME_COUNT
    ensures e == OtherEvent ==> r == g
  {
    match e
    case OtherEvent => g
    case KeyDown(k) =>
      var g1 := if g.mode == Start then g.(mode := Playing) else g;
      var g2 := if g1.mode == GameOver then ResetGame(g1, coin).(mode := Start) else g1;
      if g2.mode == Playing then PlayingKey(g2, k, coin) else g2
  }

  /** The events of one tick, handled in queue order. */
  function HandleEvents(g: Game, es: seq<Event>, coin: nat -> bool): (r: Game)
  {
    if es == [] then g
    else HandleEvent(HandleEvents(g, es[..|es| - 1], coin), es[|es| - 1], coin)
  }

  /** The early exits: paused while playing, on the start screen, or on the
      game-over screen, the rest of the tick only draws. */
  predicate Frozen(g: Game)
  {
    (g.paused && g.mode == Playing) || g.mode == Start || g.mode == GameOver
  }

  /** The simulation part of a playing tick, after the paddles have moved. */
  function Physics(g: Game, coin: nat -> bool): (r: Game)
    ensures SpeedBounded(r)
    ensures r.mode == g.mode && r.paused == g.paused && r.theme == g.theme
    ensures r.left == g.left && r.right == g.right
    ensures r.ball.w == g.ball.w && r.ball.h == g.ball.h
    ensures g.history <= r.history
    ensures g.leftScore <= r.leftScore && g.rightScore <= r.rightScore
    ensures Logged(g) ==> Logged(r)
  {
    ClampSpeed(Score(PaddleBounce(WallBounce(Advance(g))), coin))
  }

  /** One iteration of the main loop. */
  function Step(g: Game, es: seq<Event>, keys: Held, ai: bool, coin: nat -> bool): (r: Game)
  {
    var g1 := HandleEvents(g, es, coin);
    if Frozen(g1) then g1 else Physics(MovePaddles(g1, keys, ai), coin)
  }

  /** The first key on the start screen starts play and is then handled as a
      command too: P pauses at once, T changes the theme, R resets. */
  lemma StartKeyStartsPlay(g: Game, k: Key, coin: nat -> bool)
    requires g.mode == Start
    ensures HandleEvent(g, KeyDown(k), coin) == PlayingKey(g.(mode := Playing), k, coin)
    ensures HandleEvent(g, KeyDown(k), coin).mode == Playing
  {
  }

  /** Any key on the game-over screen resets the game and goes back to the
      start screen. */
  lemma GameOverKeyRestarts(g: Game, k: Key, coin: nat -> bool)
    requires g.mode == GameOver
    ensures var r := HandleEvent(g, KeyDown(k), coin);
            r == ResetGame(g, coin).(mode := Start) &&
            r.leftScore == 0 && r.rightScore == 0 && r.history == []
  {
  }

  /** While playing, paused or not: P toggles the pause flag, T cycles the
      theme within [0, 4), R resets the scores and history but stays in
      Playing with the pause flag as it was. */
  lemma PlayingCommands(g: Game, coin: nat -> bool)
    requires g.mode == Playing
    ensures HandleEvent(g, KeyDown(KeyP), coin) == g.(paused := !g.paused)
    ensures HandleEvent(g, KeyDown(KeyT), coin) == g.(theme := (g.theme + 1) % THEME_COUNT)
    ensures HandleEvent(g, KeyDown(KeyT), coin).theme < THEME_COUNT
    ensures var r := HandleEvent(g, KeyDown(KeyR), coin);
            r.mode == Playing && r.paused == g.paused &&
            r.leftScore == 0 && r.rightScore == 0 && r.history == []
  {
  }

  /** The events never move a paddle and never enter GameOver. */
  lemma {:induction false} HandleEventsFrame(g: Game, es: seq<Event>, coin: nat -> bool)
    ensures var r := HandleEvents(g, es, coin);
            r.left == g.left && r.right == g.right &&
            (g.mode != GameOver ==> r.mode != GameOver)
  {
    if es != [] {
      HandleEventsFrame(g, es[..|es| - 1], coin);
    }
  }

  /** GAME_OVER is never entered: no tick started outside it ends in it,
      whatever the scores. */
  lemma StepNeverEntersGameOver(g: Game, es: seq<Event>, keys: Held, ai: bool, coin: nat -> bool)
    requires g.mode != GameOver
    ensures Step(g, es, keys, ai, coin).mode != GameOver
  {
    HandleEventsFrame(g, es, coin);
  }

  /** Once play has started no tick leaves Playing, whatever the events and
      the scores: reaching WINNING_SCORE does not end the match, and R keeps
      the mode. */
  lemma {:induction false} PlayingStaysPlaying(g: Game, es: seq<Event>, keys: Held, ai: bool, coin: nat -> bool)
    requires g.mode == Playing
    ensures HandleEvents(g, es, coin).mode == Playing
    ensures Step(g, es, keys, ai, coin).mode == Playing
  {
    if es != [] {
      PlayingStaysPlaying(g, es[..|es| - 1], keys, ai, coin);
    }
  }

  /** A frozen tick only handles its events: paddles, ball, velocities,
      scores and history are what the events left. With no events it
      changes nothing at all. */
  lemma FrozenTick(g: Game, es: seq<Event>, keys: Held, ai: bool, coin: nat -> bool)
    ensures Frozen(HandleEvents(g, es, coin)) ==>
              Step(g, es, keys, ai, coin) == HandleEvents(g, es, coin)
    ensures Frozen(g) ==> Step(g, [], keys, ai, coin) == g
  {
  }

  /** The speed clamp runs after scoring and the ball reset, so every playing
      tick ends within the speed limit. */
  lemma PlayingTickSpeedBounded(g: Game, es: seq<Event>, keys: Held, ai: bool, coin: nat -> bool)
    requires !Frozen(HandleEvents(g, es, coin))
    ensures SpeedBounded(Step(g, es, keys, ai, coin))
  {
  }

  /** No event other than an R key press, and no GameOver key, can lower a
      score or shorten the history. */
  lemma {:induction false} EventsKeepScores(g: Game, es: seq<Event>, coin: nat -> bool)
    requires g.mode != GameOver
    requires forall i :: 0 <= i < |es| ==> es[i] != KeyDown(KeyR)
    ensures var r := HandleEvents(g, es, coin);
            r.mode != GameOver && r.history == g.history &&
            r.leftScore == g.leftScore && r.rightScore == g.rightScore
  {
    if es != [] {
      EventsKeepScores(g, es[..|es| - 1], coin);
    }
  }

  /** Scores and the length of the history never decrease in a tick without
      a reset: the history only grows at its end. */
  lemma StepKeepsScores(g: Game, es: seq<Event>, keys: Held, ai: bool, coin: nat -> bool)
    requires g.mode != GameOver
    requires forall i :: 0 <= i < |es| ==> es[i] != KeyDown(KeyR)
    ensures var r := Step(g, es, keys, ai, coin);
            g.history <= r.history && g.leftScore <= r.leftScore && g.rightScore <= r.rightScore
  {
    EventsKeepScores(g, es, coin);
  }

  /** In a playing, unpaused tick the left paddle makes exactly one
      HumanMove under the W and S keys, so HoldUp counts such ticks. */
  lemma PlayingTickMovesLeftPaddle(g: Game, keys: Held, ai: bool, coin: nat -> bool)
    requires g.mode == Playing && !g.paused
    ensures Step(g, [], keys, ai, coin).left == HumanMove(g.left, keys.w, keys.s)
  {
  }
}
