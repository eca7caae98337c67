/** The round state of the `Game` scene and one function per handler that
    changes it, with the engine's inputs (the collided body, the pointer's x,
    the ball's y, the paddle and screen sizes) passed in as values. */
module Round {
  import opened Blocks

  const INITIAL_LIVES := 3
  /** How far below the screen's bottom edge the ball must be to count as lost. */
  const OUT_OF_BOUNDS_MARGIN := 100
  /** The value `create` stores under the data key `type` of every block. */
  const BLOCK_TAG := "block"

  /** Which `game-over` screen the scene has asked for, if any: `Won` and `Lost`
      stand for the two `scene.start('game-over', ...)` requests. */
  datatype Outcome = InProgress | Won | Lost

  /** The body `bodyA` of a ball collision: either it has no game object, or
      its game object has an identity and the string stored under `type`
      (a game object without that data is given a tag other than "block"). */
  datatype Body = NoGameObject | GameObject(id: ObjectId, typeTag: string)

  /** Every field the handlers read or write. `ballAttached` records the
      paddle's `attachBall` (true) and `launch` (false). */
  datatype State = State(
    lives: int,
    score: int,
    gameStarted: bool,
    blocks: seq<ObjectId>,
    paddleX: int,
    ballAttached: bool,
    outcome: Outcome)

  /** The two early returns of `handleBallCollide`: a body without a game
      object is not a block, and a game object is one exactly when its `type`
      data is "block". */
  predicate IsBlock(body: Body): (b: bool)
    ensures body.NoGameObject? ==> !b
    ensures body.GameObject? ==> (b <==> body.typeTag == BLOCK_TAG)
  {
    body.GameObject? && body.typeTag == BLOCK_TAG
  }

  /** `Phaser.Math.Clamp(v, lo, hi)`, i.e. `max(lo, min(hi, v))`. */
  function Clamp(v: int, lo: int, hi: int): (r: int)
    ensures lo <= r
    ensures lo <= hi ==> r <= hi
    ensures lo <= v <= hi ==> r == v
    ensures v < lo ==> r == lo
    ensures lo <= hi < v ==> r == hi
    ensures hi < lo ==> r == lo
  {
    var m := if v < hi then v else hi;
    if m < lo then lo else m
  }

  /** `init`: a fresh round. Only lives, score and the launch flag are reset;
      the outcome of the previous run of the scene is cleared. */
  function Init(s: State): (r: State)
    ensures r.lives == INITIAL_LIVES && r.score == 0 && !r.gameStarted
    ensures r.outcome == InProgress
    ensures r.blocks == s.blocks && r.paddleX == s.paddleX && r.ballAttached == s.ballAttached
  {
    s.(lives := INITIAL_LIVES, score := 0, gameStarted := false, outcome := InProgress)
  }

  /** `startGame`: launches the ball only when it is not already launched. */
  function StartGame(s: State): (r: State)
    ensures r.gameStarted
    ensures s.gameStarted ==> r == s
    ensures !s.gameStarted ==> r == s.(gameStarted := true, ballAttached := false)
  {
    if s.gameStarted then s else s.(gameStarted := true, ballAttached := false)
  }

  /** `handleTouchMove`: while the ball is in play the paddle follows the pointer,
      kept within the screen; before launch the paddle does not move. */
  function TouchMove(s: State, pointerX: int, paddleWidth: nat, screenWidth: int): (r: State)
    ensures r == s.(paddleX := r.paddleX)
    ensures !s.gameStarted ==> r.paddleX == s.paddleX
    ensures s.gameStarted ==> r.paddleX == Clamp(pointerX, paddleWidth / 2, screenWidth - paddleWidth / 2)
    ensures s.gameStarted && paddleWidth <= screenWidth ==>
              paddleWidth / 2 <= r.paddleX <= screenWidth - paddleWidth / 2
    ensures s.gameStarted && paddleWidth / 2 <= pointerX <= screenWidth - paddleWidth / 2 ==>
              r.paddleX == pointerX
  {
    if s.gameStarted then
      s.(paddleX := Clamp(pointerX, paddleWidth / 2, screenWidth - paddleWidth / 2))
    else s
  }

  /** `handleBallCollide`: a body that is not a block is ignored; a block is
      taken off the list if it is on it, scores one point either way, and an
      empty list afterwards wins the round. */
  function Collide(s: State, body: Body): (r: State)
    ensures !IsBlock(body) ==> r == s
    ensures r == s.(score := r.score, blocks := r.blocks, outcome := r.outcome)
    ensures IsBlock(body) ==> r.score == s.score + 1 && r.blocks == RemoveFirst(s.blocks, body.id)
    ensures IsBlock(body) && |r.blocks| == 0 ==> r.outcome == Won
    ensures |r.blocks| > 0 ==> r.outcome == s.outcome
    ensures r.outcome == Won ==> s.outcome == Won || |r.blocks| == 0
  {
    if !IsBlock(body) then s
    else
      var rest := RemoveFirst(s.blocks, body.id);
      s.(blocks := rest, score := s.score + 1, outcome := if |rest| <= 0 then Won else s.outcome)
  }

  /** `update`, run once per frame: a ball more than the margin below the
      screen costs a life; then either the round is lost or the ball goes back
      on the paddle and waits for the next launch. */
  function Update(s: State, ballY: int, screenHeight: int): (r: State)
    ensures ballY <= screenHeight + OUT_OF_BOUNDS_MARGIN ==> r == s
    ensures r == s.(lives := r.lives, gameStarted := r.gameStarted,
                    ballAttached := r.ballAttached, outcome := r.outcome)
    ensures ballY > screenHeight + OUT_OF_BOUNDS_MARGIN ==> r.lives == s.lives - 1
    ensures ballY > screenHeight + OUT_OF_BOUNDS_MARGIN && r.lives <= 0 ==>
              r.outcome == Lost && r.gameStarted == s.gameStarted && r.ballAttached == s.ballAttached
    ensures ballY > screenHeight + OUT_OF_BOUNDS_MARGIN && r.lives > 0 ==>
              !r.gameStarted && r.ballAttached && r.outcome == s.outcome
  {
    if ballY > screenHeight + OUT_OF_BOUNDS_MARGIN then
      var left := s.lives - 1;
      if left <= 0 then s.(lives := left, outcome := Lost)
      else s.(lives := left, ballAttached := true, gameStarted := false)
    else s
  }

  /** A second `startGame` straight after the first changes nothing. */
  lemma StartGameIdempotent(s: State)
    ensures StartGame(StartGame(s)) == StartGame(s)
  {
  }

  /** `init` forgets everything the previous round did to lives, score and
      the launch flag. */
  lemma InitForgetsRound(s: State, t: State)
    requires s.blocks == t.blocks && s.paddleX == t.paddleX && s.ballAttached == t.ballAttached
    ensures Init(s) == Init(t)
  {
  }

  /** A collision with a block that is no longer on the list still scores
      a point but leaves the list and the outcome as they were. */
  lemma CollideWithRemovedBlock(s: State, id: ObjectId)
    requires id !in s.blocks && |s.blocks| > 0
    ensures Collide(s, GameObject(id, BLOCK_TAG)) == s.(score := s.score + 1)
  {
  }

  /** A hit on the block at the front of the list takes exactly that block
      off and wins when it was the last one. */
  lemma HitFront(s: State, id: ObjectId)
    requires |s.blocks| > 0 && s.blocks[0] == id
    ensures Collide(s, GameObject(id, BLOCK_TAG))
         == s.(blocks := s.blocks[1..], score := s.score + 1,
               outcome := if |s.blocks| == 1 then Won else s.outcome)
  {
    assert FindIndex(s.blocks, id) == 0;
    assert s.blocks[..0] + s.blocks[1..] == s.blocks[1..];
  }

  /** Two hits on two different blocks that are both on the list, in one
      frame or in two, remove both and score two points. */
  lemma TwoDistinctHits(s: State, a: ObjectId, b: ObjectId)
    requires a != b && a in s.blocks && b in s.blocks
    ensures var r := Collide(Collide(s, GameObject(a, BLOCK_TAG)), GameObject(b, BLOCK_TAG));
            && r.score == s.score + 2
            && |r.blocks| == |s.blocks| - 2
            && r.blocks == RemoveFirst(RemoveFirst(s.blocks, a), b)
  {
    RemoveFirstKeepsOthers(s.blocks, a, b);
  }
}
