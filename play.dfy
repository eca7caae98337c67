/** A round as the engine drives it: a sequence of pointer events, ball
    collisions and frames, each handled by the scene's matching handler, and
    what holds of every such sequence. */
module Play {
  import opened Blocks
  import opened Round

  /** The engine's fixed sizes: the screen and the paddle. */
  datatype Config = Config(screenWidth: int, screenHeight: int, paddleWidth: nat)

  /** `pointerdown`, `pointermove`, the ball's collision callback and a frame's
      `update` call, with the value the engine hands to each. */
  datatype Event = PointerDown | PointerMove(x: int) | BallCollide(body: Body) | Frame(ballY: int)

  /** One event, handled by the handler the scene registers for it: the
      pointer events go to `startGame` and `handleTouchMove`, the ball's
      collisions to `handleBallCollide`, and each frame to `update`. */
  function Step(s: State, c: Config, e: Event): (r: State)
    ensures e.PointerDown? ==> r == StartGame(s)
    ensures e.PointerMove? ==> r == TouchMove(s, e.x, c.paddleWidth, c.screenWidth)
    ensures e.BallCollide? ==> r == Collide(s, e.body)
    ensures e.Frame? ==> r == Update(s, e.ballY, c.screenHeight)
  {
    match e
    case PointerDown => StartGame(s)
    case PointerMove(x) => TouchMove(s, x, c.paddleWidth, c.screenWidth)
    case BallCollide(body) => Collide(s, body)
    case Frame(y) => Update(s, y, c.screenHeight)
  }

  /** The state after handling the events in order. */
  function Run(s: State, c: Config, events: seq<Event>): State
    decreases |events|
  {
    if |events| == 0 then s else Run(Step(s, c, events[0]), c, events[1..])
  }

  /** How many of the events are collisions with a block-tagged body. */
  function BlockHits(events: seq<Event>): nat
    decreases |events|
  {
    if |events| == 0 then 0
    else (if events[0].BallCollide? && IsBlock(events[0].body) then 1 else 0) + BlockHits(events[1..])
  }

  /** How many of the events are frames in which the ball is below the margin. */
  function Falls(c: Config, events: seq<Event>): nat
    decreases |events|
  {
    if |events| == 0 then 0
    else (if events[0].Frame? && events[0].ballY > c.screenHeight + OUT_OF_BOUNDS_MARGIN then 1 else 0)
         + Falls(c, events[1..])
  }

  /** What every handler keeps: a lost round has no lives left, a won round has
      no blocks left, a round still in progress has lives left, and the ball
      sits on the paddle exactly when it has not been launched. */
  predicate Consistent(s: State) {
    && (s.outcome == Lost ==> s.lives <= 0)
    && (s.outcome == Won ==> |s.blocks| == 0)
    && (s.lives <= 0 ==> s.outcome != InProgress)
    && (s.ballAttached <==> !s.gameStarted)
  }

  /** The state the scene is in once `init` and `create` have run: three
      lives, no score, the ball on the paddle and the level's blocks. */
  function Start(levelBlocks: seq<ObjectId>, paddleX: int): (s: State)
    ensures Consistent(s)
    ensures s.lives == INITIAL_LIVES && s.score == 0 && !s.gameStarted && s.blocks == levelBlocks
  {
    State(INITIAL_LIVES, 0, false, levelBlocks, paddleX, true, InProgress)
  }

  /** Handling `first ++ rest` is handling `first`, then `rest`. */
  lemma {:induction false} RunAppend(s: State, c: Config, first: seq<Event>, rest: seq<Event>)
    ensures Run(s, c, first + rest) == Run(Run(s, c, first), c, rest)
    decreases |first|
  {
    if |first| > 0 {
      assert (first + rest)[0] == first[0];
      assert (first + rest)[1..] == first[1..] + rest;
      RunAppend(Step(s, c, first[0]), c, first[1..], rest);
    } else {
      assert first + rest == rest;
    }
  }

  lemma RunPair(s: State, c: Config, e1: Event, e2: Event)
    ensures Run(s, c, [e1, e2]) == Step(Step(s, c, e1), c, e2)
  {
    assert [e1, e2][1..] == [e2];
    assert [e2][1..] == [];
    assert Run(s, c, [e1, e2]) == Run(Step(s, c, e1), c, [e2]);
    assert Run(Step(s, c, e1), c, [e2]) == Run(Step(Step(s, c, e1), c, e2), c, []);
  }

  lemma RunFour(s: State, c: Config, e1: Event, e2: Event, e3: Event, e4: Event)
    ensures Run(s, c, [e1, e2, e3, e4]) == Step(Step(Step(Step(s, c, e1), c, e2), c, e3), c, e4)
  {
    RunPair(s, c, e1, e2);
    RunPair(Step(Step(s, c, e1), c, e2), c, e3, e4);
    RunAppend(s, c, [e1, e2], [e3, e4]);
    assert [e1, e2] + [e3, e4] == [e1, e2, e3, e4];
  }

  lemma StepKeepsConsistent(s: State, c: Config, e: Event)
    requires Consistent(s)
    ensures Consistent(Step(s, c, e))
  {
  }

  lemma {:induction false} RunKeepsConsistent(s: State, c: Config, events: seq<Event>)
    requires Consistent(s)
    ensures Consistent(Run(s, c, events))
    decreases |events|
  {
    if |events| > 0 {
      StepKeepsConsistent(s, c, events[0]);
      RunKeepsConsistent(Step(s, c, events[0]), c, events[1..]);
    }
  }

  /** The score grows by exactly one per block collision, so it never
      decreases during a round. */
  lemma {:induction false} ScoreCountsBlockHits(s: State, c: Config, events: seq<Event>)
    ensures Run(s, c, events).score == s.score + BlockHits(events)
    ensures Run(s, c, events).score >= s.score
    decreases |events|
  {
    if |events| > 0 {
      ScoreCountsBlockHits(Step(s, c, events[0]), c, events[1..]);
    }
  }

  /** Lives drop by exactly one per frame with the ball below the margin, so
      they never increase during a round. */
  lemma {:induction false} LivesCountFalls(s: State, c: Config, events: seq<Event>)
    ensures Run(s, c, events).lives == s.lives - Falls(c, events)
    ensures Run(s, c, events).lives <= s.lives
    decreases |events|
  {
    if |events| > 0 {
      LivesCountFalls(Step(s, c, events[0]), c, events[1..]);
    }
  }

  lemma StepOnlyShrinks(s: State, c: Config, e: Event)
    ensures multiset(Step(s, c, e).blocks) <= multiset(s.blocks)
    ensures |s.blocks| - |Step(s, c, e).blocks| <= BlockHits([e])
  {
    assert [e][1..] == [];
    if e.BallCollide? && IsBlock(e.body) {
      var r := Collide(s, e.body);
      RemoveFirstMultiset(s.blocks, e.body.id);
    }
  }

  /** Blocks are only ever taken away, at most one per block collision: the
      blocks destroyed in a round never outnumber the points scored in it. */
  lemma {:induction false} BlocksOnlyShrink(s: State, c: Config, events: seq<Event>)
    ensures multiset(Run(s, c, events).blocks) <= multiset(s.blocks)
    ensures |s.blocks| - |Run(s, c, events).blocks| <= BlockHits(events)
    decreases |events|
  {
    if |events| > 0 {
      StepOnlyShrinks(s, c, events[0]);
      BlocksOnlyShrink(Step(s, c, events[0]), c, events[1..]);
      assert BlockHits(events) == BlockHits([events[0]]) + BlockHits(events[1..]) by {
        assert [events[0]][1..] == [];
      }
    }
  }

  /** Once the scene has asked for a `game-over` screen it never goes back to a
      round in progress. */
  lemma {:induction false} EndIsFinal(s: State, c: Config, events: seq<Event>)
    requires s.outcome != InProgress
    ensures Run(s, c, events).outcome != InProgress
    decreases |events|
  {
    if |events| > 0 {
      EndIsFinal(Step(s, c, events[0]), c, events[1..]);
    }
  }

  /** Launching twice in a row is the same as launching once. */
  lemma LaunchIdempotent(s: State, c: Config)
    ensures Run(s, c, [PointerDown, PointerDown]) == Run(s, c, [PointerDown])
  {
    assert [PointerDown, PointerDown][1..] == [PointerDown];
  }

  /** A round that starts with three lives and loses the ball three times,
      hitting nothing, ends lost with no score. */
  lemma ThreeFallsLose(levelBlocks: seq<ObjectId>, px: int, c: Config, y: int)
    requires y > c.screenHeight + OUT_OF_BOUNDS_MARGIN
    ensures var r := Run(Start(levelBlocks, px), c, [PointerDown, Frame(y), PointerDown, Frame(y), PointerDown, Frame(y)]);
            r.lives == 0 && r.outcome == Lost && r.score == 0
  {
    var round := [PointerDown, Frame(y)];
    var s := Start(levelBlocks, px);
    var s1 := Run(s, c, round);
    RunPair(s, c, PointerDown, Frame(y));
    assert s1.lives == 2 && !s1.gameStarted && s1.outcome == InProgress;
    var s2 := Run(s1, c, round);
    RunPair(s1, c, PointerDown, Frame(y));
    assert s2.lives == 1 && !s2.gameStarted && s2.outcome == InProgress;
    var s3 := Run(s2, c, round);
    RunPair(s2, c, PointerDown, Frame(y));
    assert s3.lives == 0 && s3.outcome == Lost && s3.score == 0;
    RunAppend(s, c, round, round + round);
    RunAppend(s1, c, round, round);
    assert round + (round + round) == [PointerDown, Frame(y), PointerDown, Frame(y), PointerDown, Frame(y)];
  }

  /** Losing the ball once with lives to spare puts it back on the paddle and
      the next pointer press launches it again. */
  lemma FallThenRelaunch(s: State, c: Config, y: int)
    requires s.gameStarted && s.lives == INITIAL_LIVES && y > c.screenHeight + OUT_OF_BOUNDS_MARGIN
    ensures var r := Step(s, c, Frame(y));
            r.lives == 2 && !r.gameStarted && r.ballAttached && r.outcome == s.outcome
            && Step(r, c, PointerDown).gameStarted && !Step(r, c, PointerDown).ballAttached
  {
  }

  /** Hitting each of the three listed blocks once, front to back, wins the
      round with three points; this holds for any three ids, repeats
      included, since each hit removes the block then at the front. */
  lemma ThreeHitsWin(a: ObjectId, b: ObjectId, d: ObjectId, px: int, c: Config)
    ensures var r := Run(Start([a, b, d], px), c,
                         [PointerDown, BallCollide(GameObject(a, BLOCK_TAG)),
                          BallCollide(GameObject(b, BLOCK_TAG)), BallCollide(GameObject(d, BLOCK_TAG))]);
            r.score == 3 && r.blocks == [] && r.outcome == Won
  {
    var s := Start([a, b, d], px);
    var s0 := StartGame(s);
    HitFront(s0, a);
    var s1 := Collide(s0, GameObject(a, BLOCK_TAG));
    assert s1.blocks == [b, d];
    HitFront(s1, b);
    var s2 := Collide(s1, GameObject(b, BLOCK_TAG));
    assert s2.blocks == [d];
    HitFront(s2, d);
    RunFour(s, c, PointerDown, BallCollide(GameObject(a, BLOCK_TAG)),
            BallCollide(GameObject(b, BLOCK_TAG)), BallCollide(GameObject(d, BLOCK_TAG)));
  }
}
