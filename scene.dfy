/** The `Game` scene itself: the fields its handlers update in place and one
    method per handler, each proved to move the fields exactly as the
    matching function of `Round` moves a `Round.State`. */
module Scene {
  import opened Blocks
  import Round
  import Play

  class Game {
    var lives: int
    var score: int
    var gameStarted: bool
    /** The live blocks, by identity, in the order the level created them. */
    var blocks: seq<ObjectId>
    /** The paddle's x position. */
    var paddleX: int
    /** Set by the paddle's `attachBall`, cleared by its `launch`. */
    var ballAttached: bool
    /** The `game-over` screen the scene has asked for, if any. */
    var outcome: Round.Outcome

    /** The fields as one value, for the round-level lemmas of `Play`. */
    function Snapshot(): Round.State
      reads this
    {
      Round.State(lives, score, gameStarted, blocks, paddleX, ballAttached, outcome)
    }

    /** The field initialisers: three lives, no score, no blocks yet, not launched. */
    constructor ()
      ensures lives == Round.INITIAL_LIVES && score == 0 && !gameStarted && blocks == []
      ensures outcome == Round.InProgress && !ballAttached && paddleX == 0
    {
      lives := Round.INITIAL_LIVES;
      score := 0;
      blocks := [];
      gameStarted := false;
      paddleX := 0;
      ballAttached := false;
      outcome := Round.InProgress;
    }

    /** `init`: whatever the previous round left, lives are 3, the score 0 and
        the ball not launched; blocks and paddle are left for `create`. */
    method Init()
      modifies this
      ensures lives == Round.INITIAL_LIVES && score == 0 && !gameStarted
      ensures outcome == Round.InProgress
      ensures blocks == old(blocks) && paddleX == old(paddleX) && ballAttached == old(ballAttached)
      ensures Snapshot() == Round.Init(old(Snapshot()))
    {
      lives := Round.INITIAL_LIVES;
      score := 0;
      gameStarted := false;
      outcome := Round.InProgress;
    }

    /** The state-changing part of `create`: the level's blocks become the
        block list, the paddle is centred and the ball is attached to it. */
    method Create(levelBlocks: seq<ObjectId>, screenWidth: int)
      modifies this
      ensures blocks == levelBlocks && paddleX == screenWidth / 2 && ballAttached
      ensures lives == old(lives) && score == old(score) && gameStarted == old(gameStarted)
      ensures outcome == old(outcome)
    {
      blocks := levelBlocks;
      paddleX := screenWidth / 2;
      ballAttached := true;
    }

    /** `startGame` (on `pointerdown`): launches only when not yet launched. */
    method StartGame()
      modifies this
      ensures gameStarted
      ensures old(gameStarted) ==> Snapshot() == old(Snapshot())
      ensures !old(gameStarted) ==> !ballAttached
      ensures lives == old(lives) && score == old(score) && blocks == old(blocks)
      ensures paddleX == old(paddleX) && outcome == old(outcome)
      ensures Snapshot() == Round.StartGame(old(Snapshot()))
    {
      if !gameStarted {
        gameStarted := true;
        ballAttached := false;
      }
    }

    /** `handleTouchMove` (on `pointermove`): once launched, the paddle follows
        the pointer, clamped so that it stays on the screen. */
    method HandleTouchMove(pointerX: int, paddleWidth: nat, screenWidth: int)
      modifies this
      ensures !old(gameStarted) ==> paddleX == old(paddleX)
      ensures old(gameStarted) ==>
                paddleX == Round.Clamp(pointerX, paddleWidth / 2, screenWidth - paddleWidth / 2)
      ensures old(gameStarted) && paddleWidth <= screenWidth ==>
                paddleWidth / 2 <= paddleX <= screenWidth - paddleWidth / 2
      ensures lives == old(lives) && score == old(score) && gameStarted == old(gameStarted)
      ensures blocks == old(blocks) && ballAttached == old(ballAttached) && outcome == old(outcome)
      ensures Snapshot() == Round.TouchMove(old(Snapshot()), pointerX, paddleWidth, screenWidth)
    {
      if gameStarted {
        paddleX := Round.Clamp(pointerX, paddleWidth / 2, screenWidth - paddleWidth / 2);
      }
    }

    /** `handleBallCollide`: a body without a game object, or whose game
        object is not tagged as a block, is ignored; a block is handled by
        `HitBlock`. */
    method HandleBallCollide(body: Round.Body)
      modifies this
      ensures Snapshot() == Round.Collide(old(Snapshot()), body)
    {
      if body.NoGameObject? {
        return;
      }
      if body.typeTag != Round.BLOCK_TAG {
        return;
      }
      HitBlock(body.id);
    }

    /** The block branch of `handleBallCollide`: takes the block off the list
        if it is there, scores a point either way, and asks for the winning
        screen once no block is left. */
    method HitBlock(id: ObjectId)
      modifies this
      ensures score == old(score) + 1
      ensures blocks == RemoveFirst(old(blocks), id)
      ensures |blocks| == 0 ==> outcome == Round.Won
      ensures |blocks| > 0 ==> outcome == old(outcome)
      ensures lives == old(lives) && gameStarted == old(gameStarted)
      ensures paddleX == old(paddleX) && ballAttached == old(ballAttached)
      ensures Snapshot() == Round.Collide(old(Snapshot()), Round.GameObject(id, Round.BLOCK_TAG))
    {
      var idx := FindIndex(blocks, id);
      if idx >= 0 {
        blocks := blocks[..idx] + blocks[idx + 1..];
      }
      score := score + 1;
      if |blocks| <= 0 {
        outcome := Round.Won;
      }
    }

    /** `update`, once per frame: a ball more than the margin below the screen
        costs a life, and then either loses the round or goes back on the
        paddle to be launched again. */
    method Update(ballY: int, screenHeight: int)
      modifies this
      ensures ballY <= screenHeight + Round.OUT_OF_BOUNDS_MARGIN ==> Snapshot() == old(Snapshot())
      ensures ballY > screenHeight + Round.OUT_OF_BOUNDS_MARGIN ==> lives == old(lives) - 1
      ensures ballY > screenHeight + Round.OUT_OF_BOUNDS_MARGIN && lives <= 0 ==>
                outcome == Round.Lost && gameStarted == old(gameStarted) && ballAttached == old(ballAttached)
      ensures ballY > screenHeight + Round.OUT_OF_BOUNDS_MARGIN && lives > 0 ==>
                !gameStarted && ballAttached && outcome == old(outcome)
      ensures score == old(score) && blocks == old(blocks) && paddleX == old(paddleX)
      ensures Snapshot() == Round.Update(old(Snapshot()), ballY, screenHeight)
    {
      if ballY > screenHeight + Round.OUT_OF_BOUNDS_MARGIN {
        lives := lives - 1;
        if lives <= 0 {
          outcome := Round.Lost;
          return;
        }
        ballAttached := true;
        gameStarted := false;
        return;
      }
    }
  }

  /** A scene constructed and then set up by `init` and `create` is in the
      start state that the round-level lemmas of `Play` begin from. */
  method StartScene(levelBlocks: seq<ObjectId>, screenWidth: int) returns (g: Game)
    ensures g.Snapshot() == Play.Start(levelBlocks, screenWidth / 2)
  {
    g := new Game();
    g.Init();
    g.Create(levelBlocks, screenWidth);
  }

  /** A scene started on a two-block level, launched, and hit on both blocks
      ends won with two points and three lives. */
  method TwoBlockWin(a: ObjectId, b: ObjectId, screenWidth: int) returns (g: Game)
    ensures g.outcome == Round.Won && g.score == 2 && g.blocks == [] && g.lives == 3
  {
    g := new Game();
    g.Init();
    g.Create([a, b], screenWidth);
    g.StartGame();
    g.HandleBallCollide(Round.GameObject(a, Round.BLOCK_TAG));
    g.HandleBallCollide(Round.GameObject(b, Round.BLOCK_TAG));
  }
}
