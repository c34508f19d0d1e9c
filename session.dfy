/**
 * The game state machine: the session reset, one tick of the game loop as
 * a function of the session state, the session invariant it keeps, and
 * runs of many ticks.
 */
module Session {
  import opened Entities
  import opened Lineage
  import opened Physics
  import opened Spawner
  import opened Movement
  import opened Collision

  /** The state before the first game: the menu, the player at (50, 0). */
  function InitialWorld(): (w: World)
    ensures w.state == Menu && w.score == 0 && w.highScore == 0 && w.obstacles == [] && w.bgObjects == []
    ensures w.tolya.x == START_X && w.tolya.y == 0.0 && !w.tolya.isJumping
  {
    World(Menu, NormalLoss, false, 0, 0, Player(START_X, 0.0, 0.0, false, Right), [], [],
          0, false, false, false, false, 0)
  }

  /**
   * A new game: playing, score and frame counter zero, every one-shot flag
   * and the power-up cleared, the player standing at x = 50, no obstacles.
   * The high score and the background trees are kept.
   */
  function StartState(w: World): (r: World)
    ensures r.state == Playing && r.score == 0 && r.frameCount == 0 && r.obstacles == []
    ensures !r.isMinibossActive && !r.hasSpawnedMiniboss && !r.hasMushroomPower && !r.hasSpawnedMushroom
    ensures r.mushroomPowerCounter == 0 && !r.showWarning && r.lossReason == NormalLoss
    ensures r.tolya.x == START_X && r.tolya.y == GROUND_Y && Settled(r.tolya) && !r.tolya.isJumping
    ensures r.highScore == w.highScore && r.bgObjects == w.bgObjects
  {
    w.(state := Playing, lossReason := NormalLoss, score := 0, frameCount := 0,
       isMinibossActive := false, hasSpawnedMiniboss := false, showWarning := false,
       hasMushroomPower := false, hasSpawnedMushroom := false, mushroomPowerCounter := 0,
       tolya := Player(START_X, GROUND_Y, 0.0, false, Right), obstacles := [])
  }

  /** The miniboss phase is armed once the score reaches 25; the warning shows only before the group spawned. */
  function ArmMiniboss(w: World): (r: World)
    ensures r.isMinibossActive == (w.isMinibossActive || w.score >= MINIBOSS_SCORE_TRIGGER)
    ensures r.showWarning ==
      (w.showWarning || (!w.isMinibossActive && w.score >= MINIBOSS_SCORE_TRIGGER && !w.hasSpawnedMiniboss))
    ensures r == w.(isMinibossActive := r.isMinibossActive, showWarning := r.showWarning)
  {
    if w.score >= MINIBOSS_SCORE_TRIGGER && !w.isMinibossActive then
      w.(isMinibossActive := true, showWarning := if !w.hasSpawnedMiniboss then true else w.showWarning)
    else w
  }

  /** The world after the player's move and the spawns, before the scroll. */
  function Prepared(w: World, keys: Keys, d: Draws, now: int): World {
    var speed := SpeedFor(w.score);
    var moved := w.(tolya := PlayerStep(w.tolya, keys, w.hasMushroomPower));
    var spawned := SpawnStep(moved, speed, d, now);
    spawned.(bgObjects := BackgroundStep(spawned.bgObjects, speed, d, now))
  }

  /** What the spawn step of a tick appends to the obstacle list. */
  function Added(w: World, keys: Keys, d: Draws, now: int): seq<Obstacle> {
    var speed := SpeedFor(w.score);
    var moved := w.(tolya := PlayerStep(w.tolya, keys, w.hasMushroomPower));
    if SpawnGate(moved, speed, d) then Spawned(moved, d, now) else []
  }

  /** The obstacle list the collision scan runs over. */
  function ScannedList(w: World, keys: Keys, d: Draws, now: int): seq<Obstacle> {
    ScrollStep(Prepared(w, keys, d, now), SpeedFor(w.score)).obstacles
  }

  /** The physics part of a tick, in the game's order. */
  function PhysicsStep(w: World, keys: Keys, d: Draws, now: int): World {
    CollisionStep(ScrollStep(Prepared(w, keys, d, now), SpeedFor(w.score)))
  }

  /** One tick of the game loop. */
  function TickStep(w: World, keys: Keys, d: Draws, now: int): World {
    if w.state != Playing then w
    else if w.score >= WIN_SCORE then w.(state := Won)
    else PhysicsStep(ArmMiniboss(w), keys, d, now)
  }

  /**
   * The session invariant: the player inside the playfield and, once a game
   * has started, consistent with the ground clamp; every obstacle
   * well-formed; the one-shot flags consistent with the score; the power
   * counter below its limit while the power-up is on (it is left at the
   * limit when the power ends); at most one mushroom and three minibosses
   * in the list, and none before the matching flag is set.
   */
  predicate Inv(w: World) {
    0.0 <= w.tolya.x <= GAME_WIDTH - TOLYA_WIDTH && w.tolya.y <= GROUND_Y
    && (w.state != Menu ==> Settled(w.tolya))
    && (forall o :: o in w.obstacles ==> WellFormed(o))
    && (w.isMinibossActive ==> w.score >= MINIBOSS_SCORE_TRIGGER)
    && (w.hasSpawnedMiniboss ==> w.isMinibossActive)
    && (w.hasSpawnedMushroom ==> w.score > MUSHROOM_SCORE_TRIGGER)
    && (w.hasMushroomPower ==> w.hasSpawnedMushroom && w.mushroomPowerCounter < MUSHROOM_POWER_PASSES)
    && CountKind(w.obstacles, MinibossBed) <= (if w.hasSpawnedMiniboss then MINIBOSS_COUNT else 0)
    && CountKind(w.obstacles, Mushroom) <= (if w.hasSpawnedMushroom then 1 else 0)
  }

  lemma InitialInv()
    ensures Inv(InitialWorld())
  {
  }

  lemma StartInv(w: World)
    ensures Inv(StartState(w))
  {
  }

  // ---- The invariant, step by step ----

  lemma ArmInv(w: World)
    requires Inv(w)
    ensures Inv(ArmMiniboss(w))
  {
  }

  lemma PreparedInv(w: World, keys: Keys, d: Draws, now: int)
    requires Inv(w) && w.state == Playing && ValidDraws(d)
    ensures Inv(Prepared(w, keys, d, now)) && Prepared(w, keys, d, now).state == Playing
  {
    var moved := w.(tolya := PlayerStep(w.tolya, keys, w.hasMushroomPower));
    MoveInv(w, keys);
    SpawnInv(moved, SpeedFor(w.score), d, now);
  }

  lemma MoveInv(w: World, keys: Keys)
    requires Inv(w) && w.state == Playing
    ensures Inv(w.(tolya := PlayerStep(w.tolya, keys, w.hasMushroomPower)))
  {
    SettledPreserved(w.tolya, keys, w.hasMushroomPower);
  }

  lemma SpawnInv(w: World, speed: real, d: Draws, now: int)
    requires Inv(w) && w.state == Playing && ValidDraws(d)
    ensures Inv(SpawnStep(w, speed, d, now)) && SpawnStep(w, speed, d, now).state == Playing
  {
    var spawned := SpawnStep(w, speed, d, now);
    var added := if SpawnGate(w, speed, d) then Spawned(w, d, now) else [];
    assert spawned.obstacles == w.obstacles + added;
    SpawnedWellFormed(w, d, now);
    SpawnedCounts(w, d, now);
    CountKindAppend(w.obstacles, added, MinibossBed);
    CountKindAppend(w.obstacles, added, Mushroom);
  }

  lemma ScrollInv(w: World, speed: real)
    requires Inv(w)
    ensures Inv(ScrollStep(w, speed))
  {
    var r := ScrollStep(w, speed);
    ScrollStepEmbeds(w, speed);
    EmbedsWellFormed(w.obstacles, r.obstacles, speed);
    EmbedsCount(w.obstacles, r.obstacles, speed, MinibossBed);
    EmbedsCount(w.obstacles, r.obstacles, speed, Mushroom);
  }

  lemma CollisionInv(w: World)
    requires Inv(w) && w.state == Playing
    ensures Inv(CollisionStep(w))
  {
    var st := ScanState(w.score, w.hasMushroomPower, w.mushroomPowerCounter);
    var res := Scan(w.tolya, w.obstacles, st);
    ScanEmbeds(w.tolya, w.obstacles, st);
    EmbedsWellFormed(w.obstacles, res.kept, 0.0);
    EmbedsCount(w.obstacles, res.kept, 0.0, MinibossBed);
    EmbedsCount(w.obstacles, res.kept, 0.0, Mushroom);
    ScanPower(w.tolya, w.obstacles, st);
    if res.st.active && !st.active {
      var i :| 0 <= i < |w.obstacles| && PicksUp(w.tolya, w.obstacles[i]);
      assert w.obstacles[i] in w.obstacles;
      assert CountKind(w.obstacles, Mushroom) > 0;
    }
  }

  /** Every tick keeps the session invariant. */
  lemma TickInv(w: World, keys: Keys, d: Draws, now: int)
    requires Inv(w) && ValidDraws(d)
    ensures Inv(TickStep(w, keys, d, now))
  {
    if w.state == Playing && w.score < WIN_SCORE {
      var a := ArmMiniboss(w);
      ArmInv(w);
      PreparedInv(a, keys, d, now);
      var p := Prepared(a, keys, d, now);
      ScrollInv(p, SpeedFor(a.score));
      CollisionInv(ScrollStep(p, SpeedFor(a.score)));
    }
  }

  // ---- What one tick does ----

  /** A tick does nothing unless the game is being played; at a score of 50 it is won. */
  lemma TickGuards(w: World, keys: Keys, d: Draws, now: int)
    ensures w.state != Playing ==> TickStep(w, keys, d, now) == w
    ensures w.state == Playing && w.score >= WIN_SCORE ==> TickStep(w, keys, d, now) == w.(state := Won)
  {
  }

  /**
   * The loss transition: a played tick below the win score ends in `lost`
   * exactly when some obstacle of the scanned list is lethal, with the
   * reason of the first such obstacle; otherwise the game goes on.
   */
  lemma TickLoss(w: World, keys: Keys, d: Draws, now: int)
    requires w.state == Playing && w.score < WIN_SCORE
    ensures var a := ArmMiniboss(w);
      var l := ScannedList(a, keys, d, now);
      var p := PlayerStep(w.tolya, keys, w.hasMushroomPower);
      var k := FirstLethal(p, l);
      var r := TickStep(w, keys, d, now);
      (r.state == Lost <==> k < |l|) && (r.state != Lost ==> r.state == Playing) &&
      (k < |l| ==> r.lossReason == ReasonOf(l[k]) &&
                   r.highScore == HighScoreAfterLoss(w.highScore, r.score))
  {
    var a := ArmMiniboss(w);
    var l := ScannedList(a, keys, d, now);
    var p := PlayerStep(w.tolya, keys, w.hasMushroomPower);
    ScanLoss(p, l, ScanState(a.score, a.hasMushroomPower, a.mushroomPowerCounter));
  }

  /**
   * The score of a played tick rises by exactly the number of obstacles
   * before the first lethal one that are passed for the first time.
   */
  lemma TickScore(w: World, keys: Keys, d: Draws, now: int)
    requires w.state == Playing && w.score < WIN_SCORE
    ensures var a := ArmMiniboss(w);
      var l := ScannedList(a, keys, d, now);
      var p := PlayerStep(w.tolya, keys, w.hasMushroomPower);
      TickStep(w, keys, d, now).score == w.score + CountScoring(p, l[..FirstLethal(p, l)])
  {
    var a := ArmMiniboss(w);
    var l := ScannedList(a, keys, d, now);
    var p := PlayerStep(w.tolya, keys, w.hasMushroomPower);
    ScanScore(p, l, ScanState(a.score, a.hasMushroomPower, a.mushroomPowerCounter));
  }

  /**
   * Lineage of the obstacles through a played tick: the new list is the old
   * one plus what was spawned, with some obstacles dropped and the others
   * moved left by exactly the tick's speed; width, height, y, id, variant
   * and kind are kept, and a passed flag is never cleared.
   */
  lemma TickLineage(w: World, keys: Keys, d: Draws, now: int)
    requires w.state == Playing && w.score < WIN_SCORE
    ensures Embeds(w.obstacles + Added(ArmMiniboss(w), keys, d, now), TickStep(w, keys, d, now).obstacles,
                   SpeedFor(w.score))
  {
    var a := ArmMiniboss(w);
    PreparedObstacles(a, keys, d, now);
    PhysicsLineage(Prepared(a, keys, d, now), SpeedFor(a.score));
  }

  lemma PreparedObstacles(w: World, keys: Keys, d: Draws, now: int)
    ensures Prepared(w, keys, d, now).obstacles == w.obstacles + Added(w, keys, d, now)
  {
  }

  lemma PhysicsLineage(w: World, speed: real)
    ensures Embeds(w.obstacles, CollisionStep(ScrollStep(w, speed)).obstacles, speed)
  {
    var sc := ScrollStep(w, speed);
    ScrollStepEmbeds(w, speed);
    var st := ScanState(sc.score, sc.hasMushroomPower, sc.mushroomPowerCounter);
    ScanEmbeds(sc.tolya, sc.obstacles, st);
    EmbedsTransitive(w.obstacles, sc.obstacles, Scan(sc.tolya, sc.obstacles, st).kept, speed, 0.0);
    assert speed + 0.0 == speed;
  }

  /**
   * The one-shot flags and the score never go back within a game, and the
   * high score never falls.
   */
  lemma TickMonotone(w: World, keys: Keys, d: Draws, now: int)
    ensures var r := TickStep(w, keys, d, now);
      r.score >= w.score && r.highScore >= w.highScore &&
      (w.isMinibossActive ==> r.isMinibossActive) &&
      (w.hasSpawnedMiniboss ==> r.hasSpawnedMiniboss) &&
      (w.hasSpawnedMushroom ==> r.hasSpawnedMushroom)
  {
    if w.state == Playing && w.score < WIN_SCORE {
      var a := ArmMiniboss(w);
      var pr := Prepared(a, keys, d, now);
      var sc := ScrollStep(pr, SpeedFor(a.score));
      assert TickStep(w, keys, d, now) == CollisionStep(sc);
      assert sc.score == a.score && sc.highScore == a.highScore;
    }
  }

  // ---- Runs of ticks ----

  /** What the host supplies for one tick: the held keys, the random draws and the clock. */
  datatype Input = Input(keys: Keys, draws: Draws, now: int)

  predicate ValidInputs(inputs: seq<Input>) {
    forall i :: 0 <= i < |inputs| ==> ValidDraws(inputs[i].draws)
  }

  /** The session after the given ticks, with no restart in between. */
  function Play(w: World, inputs: seq<Input>): World
    decreases |inputs|
  {
    if inputs == [] then w
    else
      var last := inputs[|inputs| - 1];
      TickStep(Play(w, inputs[..|inputs| - 1]), last.keys, last.draws, last.now)
  }

  /**
   * Over any run of ticks after a start: the invariant holds (the player in
   * bounds, at most one mushroom and three minibosses per game), the score
   * never decreases, and a one-shot flag once set stays set.
   */
  lemma {:induction false} PlayKeeps(w: World, inputs: seq<Input>)
    requires Inv(w) && ValidInputs(inputs)
    ensures var r := Play(w, inputs);
      Inv(r) && r.score >= w.score && r.highScore >= w.highScore &&
      (w.hasSpawnedMiniboss ==> r.hasSpawnedMiniboss) &&
      (w.hasSpawnedMushroom ==> r.hasSpawnedMushroom)
    decreases |inputs|
  {
    if inputs != [] {
      var init := inputs[..|inputs| - 1];
      assert ValidInputs(init) by {
        forall i | 0 <= i < |init| ensures ValidDraws(init[i].draws) {
          assert init[i] == inputs[i];
        }
      }
      PlayKeeps(w, init);
      var last := inputs[|inputs| - 1];
      TickInv(Play(w, init), last.keys, last.draws, last.now);
      TickMonotone(Play(w, init), last.keys, last.draws, last.now);
    }
  }

  /** Once the game is won or lost, further ticks change nothing. */
  lemma {:induction false} PlayAfterEnd(w: World, inputs: seq<Input>)
    requires w.state == Won || w.state == Lost
    ensures Play(w, inputs) == w
    decreases |inputs|
  {
    if inputs != [] {
      PlayAfterEnd(w, inputs[..|inputs| - 1]);
    }
  }
}
